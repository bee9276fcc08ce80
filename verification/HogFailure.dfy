/** When a discovery session of HogDiscovery reports a failure, and when it can report a further one. */
module HogFailure {
  import opened Basics
  import opened HogDiscovery
  import opened HogDiscoveryProofs
  import opened HogReadiness
  import Reconnect

  // ---------- While answers to subscriptions are outstanding ----------

  /** An outstanding keyboard, or outstanding answers that will be the last ones. */
  ghost predicate CanStillFail(s: State) {
    || (s.env.waiting != {} && s.env.already == 0)
    || exists i :: i in s.env.waiting && i < |s.slots| && s.slots[i].role.KeyboardInput?
  }

  /** The session fails with the last answer at the latest, if all are unfavourable. */
  ghost predicate Doomed(s: State) {
    s.env.phases == 1 && s.env.waiting != {} && s.env.already == 0 && !s.profile.keyboard
  }

  /** A further failure has been posted since there were `n` posts. */
  ghost predicate FailedSince(s: State, n: nat) {
    |s.env.posts| > n && !ReadyPosted(s)
  }

  lemma Unfavourable(s: State, i: nat)
    requires Session(s) && s.env.phases == 1 && i in s.env.waiting
    ensures var t := OnSubscribed(s, i, 1);
            && (s.slots[i].role.KeyboardInput? ==> FailedSince(t, |s.env.posts|))
            && (Doomed(s) ==>
                  |t.env.waiting| < |s.env.waiting|
                  && (FailedSince(t, |s.env.posts|) || (Doomed(t) && t.env.posts == s.env.posts)))
  {
    RecordedKeeps(s, i, 1);
    assert |s.env.waiting - {i}| == |s.env.waiting| - 1;
  }

  lemma RefuseOne(io: Io, ops: seq<Op>) returns (op: Op)
    requires LegalRun(io, ops) && Doomed(Run(io, ops))
    ensures LegalRun(io, ops + [op])
    ensures var s, t := Run(io, ops), Run(io, ops + [op]);
            && |t.env.waiting| < |s.env.waiting|
            && (FailedSince(t, |s.env.posts|) || (Doomed(t) && t.env.posts == s.env.posts))
  {
    SessionHolds(io, ops);
    var s := Run(io, ops);
    var i :| i in s.env.waiting;
    Unfavourable(s, i);
    op := Subscribed(i, 1);
    RunExtends(io, ops, op);
  }

  lemma {:induction false} RefuseAll(io: Io, ops: seq<Op>) returns (more: seq<Op>)
    requires LegalRun(io, ops) && Doomed(Run(io, ops))
    ensures LegalRun(io, ops + more) && FailedSince(Run(io, ops + more), |Run(io, ops).env.posts|)
    decreases |Run(io, ops).env.waiting|
  {
    var op := RefuseOne(io, ops);
    if FailedSince(Run(io, ops + [op]), |Run(io, ops).env.posts|) {
      more := [op];
    } else {
      var rest := RefuseAll(io, ops + [op]);
      more := [op] + rest;
      ConcatAssociates(ops, [op], rest);
    }
  }

  /** Losing the keyboard's subscription takes back its capability and answers nothing. */
  lemma LoseKeyboard(io: Io, ops: seq<Op>) returns (op: Op)
    requires LegalRun(io, ops) && Run(io, ops).env.phases == 1 && Run(io, ops).profile.keyboard
    requires Run(io, ops).env.waiting != {} && Run(io, ops).env.already == 0
    ensures LegalRun(io, ops + [op]) && Doomed(Run(io, ops + [op]))
    ensures Run(io, ops + [op]).env.posts == Run(io, ops).env.posts
  {
    SessionHolds(io, ops);
    var s := Run(io, ops);
    var i :| 0 <= i < |s.slots| && s.slots[i].role == KeyboardInput && s.slots[i].subscribed;
    op := Unsubscribed(i);
    RunExtends(io, ops, op);
  }

  lemma FailAgain(io: Io, ops: seq<Op>) returns (more: seq<Op>)
    requires LegalRun(io, ops) && Run(io, ops).env.phases == 1 && CanStillFail(Run(io, ops))
    ensures LegalRun(io, ops + more) && FailedSince(Run(io, ops + more), |Run(io, ops).env.posts|)
  {
    var s := Run(io, ops);
    if i :| i in s.env.waiting && i < |s.slots| && s.slots[i].role.KeyboardInput? {
      SessionHolds(io, ops);
      Unfavourable(s, i);
      RunExtends(io, ops, Subscribed(i, 1));
      more := [Subscribed(i, 1)];
    } else if s.profile.keyboard {
      var op := LoseKeyboard(io, ops);
      var rest := RefuseAll(io, ops + [op]);
      more := [op] + rest;
      ConcatAssociates(ops, [op], rest);
    } else {
      more := RefuseAll(io, ops);
    }
  }

  // ---------- While a request is open ----------

  /** Every call a callback may make is refused, but for the discovery of descriptors. */
  const ALL_REFUSED: Io := Io(0, -5, [-5, -5, -5, -5, -5, -5, -5, -5], OK)

  /** The first failure of the session has been posted. */
  predicate FirstFailure(s: State) {
    |s.env.posts| == 1 && s.env.posts[0].HidFailure?
  }

  lemma {:induction false} RefusedLoop(s: State, i: nat, io: Io)
    requires LoopInv(s, i, false) && |s.slots| <= MAX_REPORTS && io.subscribe == ALL_REFUSED.subscribe
    ensures FirstFailure(SubscribeFrom(s, i, false, io).0)
    decreases |s.slots| - i
  {
    if i < |s.slots| {
      RefusedLoop(s, i + 1, io);
      if Wanted(s.slots[i]) {
        SubscribeKeepsLoop(s, i, false, io.subscribe[i]);
        RefusedLoop(Subscribe(s, i, io.subscribe[i]), i + 1, io);
      }
    }
  }

  lemma RefusedSubscriptions(s: State, io: Io)
    requires Quiet(s) && io.subscribe == ALL_REFUSED.subscribe
    ensures FirstFailure(StartSubscriptions(s, io).0)
  {
    RefusedLoop(OpenPhase(s), 0, io);
  }

  /** Walking on leads to a further report's descriptors, or to refused subscriptions. */
  lemma {:induction false} RefusedWalk(s: State)
    requires Quiet(s) && s.flags.current < |s.slots|
    ensures var t := AdvanceAfterReference(s, ALL_REFUSED).0;
            || FirstFailure(t)
            || (t.env.request.DescriptorRequest? && t.env.posts == [] && t.flags.current > s.flags.current)
    decreases |s.slots| - s.flags.current
  {
    var t := s.(flags := s.flags.(current := s.flags.current + 1));
    if t.flags.current < |t.slots| {
      RefusedWalk(t);
    } else {
      RefusedSubscriptions(if t.profile.feature then StartFeatureRead(t, ALL_REFUSED).0 else t, ALL_REFUSED);
    }
  }

  const NOTHING_WORKS: Io := ALL_REFUSED.(discover := -5)

  lemma {:induction false} DeadWalk(s: State)
    requires Quiet(s) && s.flags.current < |s.slots|
    ensures var r := AdvanceAfterReference(s, NOTHING_WORKS); FirstFailure(r.0) || (r.0.env.posts == [] && r.1 != OK)
    ensures var r := StartDescriptors(s, NOTHING_WORKS); FirstFailure(r.0) || (r.0.env.posts == [] && r.1 != OK)
    decreases |s.slots| - s.flags.current
  {
    var t := s.(flags := s.flags.(current := s.flags.current + 1));
    if t.flags.current < |t.slots| {
      DeadWalk(t);
    } else {
      RefusedSubscriptions(if t.profile.feature then StartFeatureRead(t, NOTHING_WORKS).0 else t, NOTHING_WORKS);
    }
  }

  lemma CharacteristicsFail(s: State)
    requires Session(s) && s.env.request.CharacteristicRequest?
    ensures FailedSince(OnCharacteristicsEnd(s, NOTHING_WORKS), 0)
  {
    if s.slots != [] {
      DeadWalk(Answered(s).(flags := s.flags.(current := 0)));
    }
  }

  lemma DescriptorsFail(s: State)
    requires Session(s) && s.env.request.DescriptorRequest? && s.flags.current < |s.slots|
    ensures var t := OnDescriptorsEnd(s, ALL_REFUSED);
            || FailedSince(t, 0)
            || (t.env.request.DescriptorRequest? && t.flags.current > s.flags.current)
  {
    if s.slots[s.flags.current].refHandle == 0 {
      RefusedWalk(Answered(s));
    }
  }

  lemma {:induction false} DescriptorsLeadToFailure(io: Io, ops: seq<Op>) returns (more: seq<Op>)
    requires LegalRun(io, ops) && Run(io, ops).env.request.DescriptorRequest?
    ensures LegalRun(io, ops + more) && FailedSince(Run(io, ops + more), 0)
    decreases MAX_REPORTS - Run(io, ops).flags.current
  {
    SessionHolds(io, ops);
    BudgetHolds(io, ops);
    var s := Run(io, ops);
    var op := DescriptorsEnd(ALL_REFUSED);
    DescriptorsFail(s);
    RunExtends(io, ops, op);
    if FailedSince(Run(io, ops + [op]), 0) {
      more := [op];
    } else {
      BudgetHolds(io, ops + [op]);
      var rest := DescriptorsLeadToFailure(io, ops + [op]);
      more := [op] + rest;
      ConcatAssociates(ops, [op], rest);
    }
  }

  lemma ReferencePassed(s: State)
    requires Session(s) && s.env.request.ReferenceRequest? && s.flags.current < |s.slots|
    ensures var t := OnReference(s, 1, Some([]), ALL_REFUSED); FailedSince(t, 0) || t.env.request.DescriptorRequest?
  {
    RefusedWalk(Answered(s));
  }

  /** An unreadable reference is passed over. */
  lemma ReferenceLeadsOn(io: Io, ops: seq<Op>) returns (op: Op)
    requires LegalRun(io, ops) && Run(io, ops).env.request.ReferenceRequest?
    ensures LegalRun(io, ops + [op])
    ensures FailedSince(Run(io, ops + [op]), 0) || Run(io, ops + [op]).env.request.DescriptorRequest?
  {
    SessionHolds(io, ops);
    BudgetHolds(io, ops);
    op := Reference(1, Some([]), ALL_REFUSED);
    ReferencePassed(Run(io, ops));
    RunExtends(io, ops, op);
  }

  lemma FeatureFails(s: State)
    requires Session(s) && s.env.request.FeatureRequest?
    ensures FailedSince(OnFeature(s, Some([]), ALL_REFUSED), 0)
  {
    RefusedSubscriptions(Answered(s), ALL_REFUSED);
  }

  /** From every open request some answers lead to a failure. */
  lemma OpenRequestCanFail(io: Io, ops: seq<Op>) returns (more: seq<Op>)
    requires LegalRun(io, ops) && !Run(io, ops).env.request.NoRequest?
    ensures LegalRun(io, ops + more) && FailedSince(Run(io, ops + more), 0)
  {
    SessionHolds(io, ops);
    var s := Run(io, ops);
    if s.env.request.ServiceRequest? {
      RunExtends(io, ops, NoService);
      more := [NoService];
    } else if s.env.request.CharacteristicRequest? {
      CharacteristicsFail(s);
      RunExtends(io, ops, CharacteristicsEnd(NOTHING_WORKS));
      more := [CharacteristicsEnd(NOTHING_WORKS)];
    } else if s.env.request.FeatureRequest? {
      FeatureFails(s);
      RunExtends(io, ops, Feature(0, Some([]), ALL_REFUSED));
      more := [Feature(0, Some([]), ALL_REFUSED)];
    } else if s.env.request.DescriptorRequest? {
      more := DescriptorsLeadToFailure(io, ops);
    } else {
      var op := ReferenceLeadsOn(io, ops);
      more := [op];
      if !FailedSince(Run(io, ops + [op]), 0) {
        var rest := DescriptorsLeadToFailure(io, ops + [op]);
        more := [op] + rest;
        ConcatAssociates(ops, [op], rest);
      }
    }
  }

  // ---------- Exactly when ----------

  /** A request is open, or answers to subscriptions are still to decide the session. */
  ghost predicate MayFail(s: State) {
    !s.env.request.NoRequest? || CanStillFail(s)
  }

  lemma CanFail(io: Io, ops: seq<Op>) returns (more: seq<Op>)
    requires LegalRun(io, ops) && MayFail(Run(io, ops))
    ensures LegalRun(io, ops + more) && FailedSince(Run(io, ops + more), |Run(io, ops).env.posts|)
  {
    SessionHolds(io, ops);
    if Run(io, ops).env.request.NoRequest? {
      more := FailAgain(io, ops);
    } else {
      more := OpenRequestCanFail(io, ops);
    }
  }

  lemma SettledStep(s: State, op: Op)
    requires Session(s) && !MayFail(s) && Legal(s, op)
    ensures var t := Step(s, op);
            t.env.posts == s.env.posts && !MayFail(t) && t.flags.active == s.flags.active
  {
    match op
    case Subscribed(i, err) => RecordedKeeps(s, i, err);
    case Unsubscribed(i) =>
  }

  lemma {:induction false} Settled(io: Io, ops: seq<Op>, more: seq<Op>)
    requires LegalRun(io, ops) && LegalRun(io, ops + more) && !MayFail(Run(io, ops))
    ensures var s, t := Run(io, ops), Run(io, ops + more);
            t.env.posts == s.env.posts && !MayFail(t) && t.flags.active == s.flags.active
    decreases |more|
  {
    if more == [] {
      assert ops + more == ops;
    } else {
      var front, last := more[..|more| - 1], more[|more| - 1];
      LastSplits(ops, more);
      RunExtends(io, ops + front, last);
      Settled(io, ops, front);
      SessionHolds(io, ops + front);
      SettledStep(Run(io, ops + front), last);
    }
  }

  /**
   At any point of a session it can still report a failure - a further one, if it has failed before -
   exactly if a request is open, a keyboard's answer is outstanding, or any answer is and none was
   refused as already present. Each report is noted with the scheduler as another failed attempt.
   */
  lemma FailureReachableExactly(io: Io, ops: seq<Op>)
    requires LegalRun(io, ops)
    ensures (exists more :: LegalRun(io, ops + more) && FailedSince(Run(io, ops + more), |Run(io, ops).env.posts|))
            <==> MayFail(Run(io, ops))
  {
    if MayFail(Run(io, ops)) {
      var more := CanFail(io, ops);
    } else {
      forall more | LegalRun(io, ops + more)
        ensures !FailedSince(Run(io, ops + more), |Run(io, ops).env.posts|)
      {
        Settled(io, ops, more);
      }
    }
  }

  // ---------- Two reports in one step ----------

  /** Nothing is known about any report yet, and no mouse feature has been found. */
  ghost predicate Bare(s: State) {
    !s.profile.feature && forall i :: 0 <= i < |s.slots| ==> s.slots[i].role.Unknown?
  }

  /** No report from number `from` on leaves room for a descriptor. */
  ghost predicate NoRoom(slots: seq<Slot>, from: nat) {
    forall i :: from <= i < |slots| ==> slots[i].valueHandle >= slots[i].endHandle
  }

  lemma {:induction false} BareLoop(s: State, i: nat, io: Io)
    requires Bare(s) && |s.slots| <= MAX_REPORTS
    ensures SubscribeFrom(s, i, false, io) == (Fail(s, ReportMissing), io.post)
    decreases |s.slots| - i
  {
    if i < |s.slots| {
      BareLoop(s, i + 1, io);
    }
  }

  /** With nothing known, the walk fails at once if no report has room for a descriptor, and else asks. */
  lemma {:induction false} BareWalk(s: State, io: Io)
    requires Bare(s) && s.flags.current < |s.slots| <= MAX_REPORTS && s.env.posts == []
    ensures var r := AdvanceAfterReference(s, io);
            if NoRoom(s.slots, s.flags.current + 1) then FirstFailure(r.0) && r.1 == io.post else r.0.env.posts == []
    ensures var r := StartDescriptors(s, io);
            if NoRoom(s.slots, s.flags.current) then FirstFailure(r.0) && r.1 == io.post else r.0.env.posts == []
    decreases |s.slots| - s.flags.current
  {
    var t := s.(flags := s.flags.(current := s.flags.current + 1));
    if t.flags.current < |t.slots| {
      BareWalk(t, io);
    } else {
      BareLoop(OpenPhase(t), 0, io);
    }
  }

  lemma BareBegin(s: State, io: Io)
    requires Bare(s) && 0 < |s.slots| <= MAX_REPORTS && s.env.posts == []
    ensures |BeginDescriptors(s, io).env.posts| == 2 <==> NoRoom(s.slots, 0) && io.post != OK
  {
    BareWalk(s.(flags := s.flags.(current := 0)), io);
  }

  /** Until descriptors are looked for, nothing is known. */
  ghost predicate BareYet(s: State) {
    s.env.request.ServiceRequest? || s.env.request.CharacteristicRequest? ==> Bare(s) && s.env.posts == []
  }

  lemma BeginIsPast(s: State, io: Io)
    requires 0 < |s.slots| <= MAX_REPORTS && s.env.request.NoRequest?
    ensures WalkRequest(BeginDescriptors(s, io).env.request)
  {
    WalkKeepsRequest(s.(flags := s.flags.(current := 0)), io);
  }

  lemma CharacteristicStaysBare(s: State, handle: int, value: int, props: Props, isReport: bool, io: Io)
    requires BareYet(s) && |s.slots| <= MAX_REPORTS && s.env.request.CharacteristicRequest?
    ensures BareYet(OnCharacteristic(s, handle, value, props, isReport, io))
  {
    if |s.slots| < MAX_REPORTS {
      var t := s.(slots := TableAfter(s, handle, value, props, isReport), lastHandle := value);
      if value >= s.service.last && t.slots != [] {
        BeginIsPast(Answered(t), io);
      }
    }
  }

  lemma SubscriptionsArePast(s: State, io: Io)
    requires |s.slots| <= MAX_REPORTS && s.env.request.NoRequest?
    ensures StartSubscriptions(s, io).0.env.request.NoRequest?
  {
    SubscribeKeepsRequest(OpenPhase(s), 0, false, io);
  }

  lemma StepStaysBare(s: State, op: Op)
    requires BareYet(s) && Session(s) && Budget(s) && Legal(s, op)
    ensures BareYet(Step(s, op))
  {
    match op
    case ServiceFound(first, last, io) =>
    case NoService =>
    case Characteristic(handle, value, props, isReport, io) =>
      CharacteristicStaysBare(s, handle, value, props, isReport, io);
    case CharacteristicsEnd(io) =>
      if s.slots != [] {
        BeginIsPast(Answered(s), io);
      }
    case Descriptor(handle, kind) =>
    case DescriptorsEnd(io) => WalkKeepsRequest(Answered(s), io);
    case Reference(err, data, io) => ReferenceIsPast(s, err, data, io);
    case Feature(_, data, io) => SubscriptionsArePast(Answered(s), io);
    case Subscribed(index, err) => AnswersStayBare(s, index, err);
    case Unsubscribed(index) => AnswersStayBare(s, index, 0);
  }

  lemma ReferenceIsPast(s: State, err: int, data: Option<seq<Byte>>, io: Io)
    requires Budget(s) && |s.slots| <= MAX_REPORTS && s.env.request.ReferenceRequest?
    ensures WalkRequest(OnReference(s, err, data, io).env.request)
  {
    var t := Answered(s);
    WalkKeepsRequest(t, io);
    if data.Some? && |data.value| >= 2 {
      WalkKeepsRequest(StoreReference(t, data.value[0] as int, data.value[1] as int), io);
    }
  }

  lemma AnswersStayBare(s: State, i: nat, err: int)
    requires BareYet(s) && Session(s)
    ensures i in s.env.waiting ==> BareYet(OnSubscribed(s, i, err))
    ensures BareYet(OnUnsubscribed(s, i))
  {
  }

  lemma {:induction false} BareHolds(io: Io, ops: seq<Op>)
    requires LegalRun(io, ops)
    ensures BareYet(Run(io, ops))
  {
    if ops != [] {
      var front := ops[..|ops| - 1];
      BareHolds(io, front);
      SessionHolds(io, front);
      BudgetHolds(io, front);
      StepStaysBare(Run(io, front), ops[|ops| - 1]);
    }
  }

  /** The report table once this characteristic has been entered. */
  function TableAfter(s: State, handle: int, value: int, props: Props, isReport: bool): seq<Slot> {
    var closed := CloseLastSlot(s.slots, handle);
    if isReport then closed + [NewSlot(props, value, s.service.last)] else closed
  }

  /**
   The end of the characteristics reports a failure twice at once exactly if there are reports, none
   has room for a descriptor, and the first report of the failure cannot be posted.
   */
  lemma EndFailsTwiceExactly(io: Io, ops: seq<Op>, op: Op)
    requires LegalRun(io, ops + [op]) && op.CharacteristicsEnd?
    ensures var slots := Run(io, ops).slots;
            |Run(io, ops + [op]).env.posts| == 2 <==> slots != [] && NoRoom(slots, 0) && op.io.post != OK
  {
    RunExtends(io, ops, op);
    SessionHolds(io, ops);
    BareHolds(io, ops);
    var s := Run(io, ops);
    if s.slots != [] {
      BareBegin(Answered(s), op.io);
    }
  }

  /** So does the last characteristic of the service, with the table as it leaves it. */
  lemma LastFailsTwiceExactly(io: Io, ops: seq<Op>, op: Op)
    requires LegalRun(io, ops + [op]) && op.Characteristic?
    ensures var s := Run(io, ops);
            var slots := TableAfter(s, op.handle, op.value, op.props, op.isReport);
            |Run(io, ops + [op]).env.posts| == 2 <==>
              && |s.slots| < MAX_REPORTS && op.value >= s.service.last
              && slots != [] && NoRoom(slots, 0) && op.io.post != OK
  {
    RunExtends(io, ops, op);
    SessionHolds(io, ops);
    BareHolds(io, ops);
    var s := Run(io, ops);
    if |s.slots| < MAX_REPORTS {
      var t := s.(slots := TableAfter(s, op.handle, op.value, op.props, op.isReport), lastHandle := op.value);
      assert Bare(t);
      if op.value >= s.service.last && t.slots != [] {
        BareBegin(Answered(t), op.io);
      }
    }
  }

  /** A service that ends with its only report, and a queue that is full: two notes for one failure. */
  lemma FullQueueFailsTwice() returns (io: Io, ops: seq<Op>)
    ensures LegalRun(io, ops) && |Run(io, ops).env.posts| == 2
  {
    io := GOOD;
    RunExtends(io, [], ServiceFound(1, 3, GOOD));
    ops := [] + [ServiceFound(1, 3, GOOD)];
    var op := Characteristic(2, 3, NOTIFY, true, GOOD.(post := QUEUE_FULL));
    RunExtends(io, ops, op);
    LastFailsTwiceExactly(io, ops, op);
    ops := ops + [op];
  }

  // ---------- One attempt, two failures ----------

  /** The second report turns out to be the consumer's, and both subscriptions are accepted. */
  lemma ExampleAccepted(s: State, t: State, op: Op)
    requires s == ONE_READ
    requires op == Reference(0, Some([2, 1]), GOOD) && t == Step(s, op)
    ensures Legal(s, op)
    ensures t.slots == [ExampleSlot(3, 9, 4, 5, KeyboardInput), ExampleSlot(11, 20, 12, 13, ConsumerInput)]
    ensures t.flags.pending == 2 && t.env.waiting == {0, 1} && t.env.already == 0 && t.env.phases == 1
    ensures t.env.posts == [] && !t.flags.finalizePending && t.profile == NO_PROFILE
  {
    var slots := [ExampleSlot(3, 9, 4, 5, KeyboardInput), ExampleSlot(11, 20, 12, 13, ConsumerInput)];
    var v := OpenPhase(Example(NoRequest, slots, 11, 2, 6));
    var w := Subscribe(v, 0, 0);
    assert SubscribeFrom(w, 1, true, GOOD) == SubscribeFrom(Subscribe(w, 1, 0), 2, true, GOOD);
    assert SubscribeFrom(v, 0, false, GOOD) == SubscribeFrom(w, 1, true, GOOD);
    assert StoreReference(Answered(s), 2, 1) == Example(NoRequest, slots, 11, 1, 6);
    assert AdvanceAfterReference(Example(NoRequest, slots, 11, 1, 6), GOOD) == SubscribeFrom(v, 0, false, GOOD);
  }

  /** The keyboard's subscription is refused and the consumer's granted: the session fails twice. */
  lemma RefusedTwice(t: State)
    requires t.slots == [ExampleSlot(3, 9, 4, 5, KeyboardInput), ExampleSlot(11, 20, 12, 13, ConsumerInput)]
    requires t.flags.pending == 2 && t.env.waiting == {0, 1} && t.env.already == 0 && t.env.phases == 1
    requires t.env.posts == [] && !t.flags.finalizePending && t.profile == NO_PROFILE
    ensures Legal(t, Subscribed(0, 5)) && Legal(Step(t, Subscribed(0, 5)), Subscribed(1, 0))
    ensures var u := Step(Step(t, Subscribed(0, 5)), Subscribed(1, 0));
            OneKeyboard(u.slots) && u.env.posts == [HidFailure(SubscribeFailed), HidFailure(SubscribeFailed)]
  {
  }

  /** The same peer granting both subscriptions: a session that becomes ready. */
  lemma ReadySession() returns (ops: seq<Op>)
    ensures LegalRun(GOOD, ops) && ReadyPosted(Run(GOOD, ops))
  {
    ops := ExampleReferences();
    var op := Reference(0, Some([2, 1]), GOOD);
    ExampleAccepted(ONE_READ, Step(ONE_READ, op), op);
    RunExtends(GOOD, ops, op);
    AcceptedIsHopeful(Step(ONE_READ, op));
    var more := AnswerAll(GOOD, ops + [op]);
    ops := ops + [op] + more;
  }

  lemma AcceptedIsHopeful(t: State)
    requires t.slots == [ExampleSlot(3, 9, 4, 5, KeyboardInput), ExampleSlot(11, 20, 12, 13, ConsumerInput)]
    requires t.env.waiting == {0, 1} && t.env.already == 0 && t.env.phases == 1
    ensures Hopeful(t)
  {
    assert 0 in t.env.waiting && t.slots[0].role.KeyboardInput?;
  }

  /**
   A peer with one keyboard and one consumer report whose keyboard subscription is refused: a single
   failed attempt posts HID_FAILURE twice, and the scheduler counts two failures.
   */
  lemma OneAttemptCountedTwice(r: Reconnect.State) returns (io: Io, ops: seq<Op>)
    requires Reconnect.Valid(r) && Reconnect.Failures(r) == 0
    ensures LegalRun(io, ops) && OneKeyboard(Run(io, ops).slots)
    ensures Run(io, ops).env.posts == [HidFailure(SubscribeFailed), HidFailure(SubscribeFailed)]
    ensures Reconnect.Failures(Noted(r, Run(io, ops).env.posts, 0)) == 2
  {
    io := GOOD;
    ops := ExampleReferences();
    var op := Reference(0, Some([2, 1]), GOOD);
    ExampleAccepted(ONE_READ, Step(ONE_READ, op), op);
    RefusedTwice(Step(ONE_READ, op));
    RunExtends(io, ops, op);
    ops := ops + [op];
    RunExtends(io, ops, Subscribed(0, 5));
    ops := ops + [Subscribed(0, 5)];
    RunExtends(io, ops, Subscribed(1, 0));
    ops := ops + [Subscribed(1, 0)];
    TwoFailuresNoted(r, HidFailure(SubscribeFailed));
  }

  lemma TwoFailuresNoted(r: Reconnect.State, post: Post)
    requires Reconnect.Valid(r) && Reconnect.Failures(r) == 0 && post.HidFailure?
    ensures Reconnect.Failures(Noted(r, [post, post], 0)) == 2
  {
    NotedNext(r, [], 0, post);
    NotedNext(r, [] + [post], 0, post);
    assert [] + [post] + [post] == [post, post];
    Reconnect.FailureCounts(r);
    Reconnect.FailureCounts(Reconnect.Failure(r));
  }
}
