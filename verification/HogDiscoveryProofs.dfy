/** What every legal discovery session of HogDiscovery keeps. */
module HogDiscoveryProofs {
  import opened Basics
  import opened HogDiscovery

  // ---------- The report table ----------

  /** Descriptor handles lie in their own slot's range. */
  predicate OwnHandles(slot: Slot) {
    && (slot.cccHandle == 0 || slot.valueHandle < slot.cccHandle <= slot.endHandle)
    && (slot.refHandle == 0 || slot.valueHandle < slot.refHandle <= slot.endHandle)
  }

  /** Slots ascend, end inside the service and own their descriptors; `seen` is the last value handle. */
  ghost predicate Tidy(slots: seq<Slot>, seen: int, last: int) {
    && (forall i :: 0 <= i < |slots| ==>
          && 1 <= slots[i].valueHandle <= slots[i].endHandle <= last
          && slots[i].valueHandle <= seen && OwnHandles(slots[i]))
    && (forall i, j :: 0 <= i < j < |slots| ==> slots[i].endHandle < slots[j].valueHandle)
  }

  ghost predicate NoDescriptors(slots: seq<Slot>) {
    forall i :: 0 <= i < |slots| ==> slots[i].cccHandle == 0 && slots[i].refHandle == 0
  }

  ghost predicate TableInv(s: State) {
    && |s.slots| <= MAX_REPORTS
    && Tidy(s.slots, s.lastHandle, s.service.last)
    && (s.slots != [] ==> s.service.last <= 0xffff)
    && (s.env.request.CharacteristicRequest? ==>
          1 <= s.lastHandle && s.service.last <= 0xffff && NoDescriptors(s.slots))
    && (s.env.request.ServiceRequest? ==> s.slots == [])
  }

  lemma TableFollows(s: State, t: State)
    requires TableInv(s) && SameTable(s, t)
    requires !t.env.request.CharacteristicRequest? && !t.env.request.ServiceRequest?
    ensures TableInv(t)
  {
  }

  lemma {:induction false} SubscribeKeepsRequest(s: State, i: nat, saw: bool, io: Io)
    requires |s.slots| <= MAX_REPORTS
    ensures SubscribeFrom(s, i, saw, io).0.env.request == s.env.request
    decreases |s.slots| - i
  {
    if i < |s.slots| {
      SubscribeKeepsRequest(s, i + 1, saw, io);
      SubscribeKeepsRequest(Subscribe(s, i, io.subscribe[i]), i + 1, saw || s.slots[i].role.KeyboardInput?, io);
    }
  }

  /** Which requests can be open after the table has been walked on. */
  predicate WalkRequest(request: Request) {
    request.NoRequest? || request.DescriptorRequest? || request.FeatureRequest?
  }

  lemma {:induction false} WalkKeepsRequest(s: State, io: Io)
    requires s.flags.current < |s.slots| <= MAX_REPORTS && s.env.request.NoRequest?
    ensures WalkRequest(AdvanceAfterReference(s, io).0.env.request)
    ensures WalkRequest(StartDescriptors(s, io).0.env.request)
    decreases |s.slots| - s.flags.current
  {
    var t := s.(flags := s.flags.(current := s.flags.current + 1));
    if t.flags.current < |t.slots| {
      WalkKeepsRequest(t, io);
    } else {
      var u := if t.profile.feature then StartFeatureRead(t, io).0 else t;
      if u.env.request.NoRequest? {
        SubscribeKeepsRequest(OpenPhase(u), 0, false, io);
      }
    }
  }

  lemma BeginDescriptorsTable(s: State, io: Io)
    requires TableInv(s) && s.slots != [] && s.env.request.NoRequest?
    ensures TableInv(BeginDescriptors(s, io))
  {
    var t := s.(flags := s.flags.(current := 0));
    WalkKeepsRequest(t, io);
    TableFollows(s, BeginDescriptors(s, io));
  }

  /** Closing the previous slot before the next declaration only shortens that slot. */
  lemma CloseTidy(slots: seq<Slot>, seen: int, last: int, handle: int)
    requires Tidy(slots, seen, last) && NoDescriptors(slots) && seen < handle <= last
    ensures var closed := CloseLastSlot(slots, handle);
            && Tidy(closed, seen, last) && NoDescriptors(closed)
            && forall i :: 0 <= i < |closed| ==> closed[i].endHandle < handle
  {
    if slots != [] {
      var n := |slots| - 1;
      assert forall i :: 0 <= i < n ==> slots[i].endHandle < slots[n].valueHandle;
    }
  }

  /** A slot that starts after all others end may be appended. */
  lemma AppendTidy(slots: seq<Slot>, seen: int, last: int, handle: int, value: int, props: Props)
    requires Tidy(slots, seen, last) && NoDescriptors(slots) && 1 <= seen < handle < value <= last
    requires forall i :: 0 <= i < |slots| ==> slots[i].endHandle < handle
    ensures Tidy(slots, value, last)
    ensures var longer := slots + [NewSlot(props, value, last)]; Tidy(longer, value, last) && NoDescriptors(longer)
  {
  }

  lemma CharacteristicTable(s: State, handle: int, value: int, props: Props, isReport: bool, io: Io)
    requires TableInv(s) && Legal(s, Characteristic(handle, value, props, isReport, io))
    ensures TableInv(OnCharacteristic(s, handle, value, props, isReport, io))
  {
    if |s.slots| < MAX_REPORTS {
      var closed := CloseLastSlot(s.slots, handle);
      CloseTidy(s.slots, s.lastHandle, s.service.last, handle);
      AppendTidy(closed, s.lastHandle, s.service.last, handle, value, props);
      var slots := if isReport then closed + [NewSlot(props, value, s.service.last)] else closed;
      var t := s.(slots := slots, lastHandle := value);
      if value >= s.service.last && slots != [] {
        BeginDescriptorsTable(Answered(t), io);
      }
    }
  }

  lemma WalkTable(s: State, io: Io)
    requires TableInv(s) && s.env.request.NoRequest? && s.flags.current < |s.slots|
    ensures TableInv(AdvanceAfterReference(s, io).0)
  {
    WalkKeepsRequest(s, io);
    TableFollows(s, AdvanceAfterReference(s, io).0);
  }

  lemma StoreReferenceTable(s: State, id: int, kind: int)
    requires TableInv(s) && s.env.request.NoRequest? && s.flags.current < |s.slots|
    ensures TableInv(StoreReference(s, id, kind)) && StoreReference(s, id, kind).env == s.env
  {
    var slot := s.slots[s.flags.current];
    var role := RoleFromReference(id, kind);
    assert OwnHandles(slot);
    UpdateTidy(s.slots, s.lastHandle, s.service.last, s.flags.current,
      slot.(reportId := id, reportType := kind, role := role));
  }

  lemma OnReferenceTable(s: State, err: int, data: Option<seq<Byte>>, io: Io)
    requires TableInv(s) && s.env.request.ReferenceRequest?
    ensures TableInv(OnReference(s, err, data, io))
  {
    var t := Answered(s);
    TableFollows(s, t);
    if t.flags.current < |t.slots| && data.Some? {
      if err != 0 || |data.value| < 2 {
        WalkTable(t, io);
      } else {
        StoreReferenceTable(t, data.value[0] as int, data.value[1] as int);
        WalkTable(StoreReference(t, data.value[0] as int, data.value[1] as int), io);
      }
    }
  }

  lemma OnFeatureTable(s: State, data: Option<seq<Byte>>, io: Io)
    requires TableInv(s) && s.env.request.FeatureRequest?
    ensures TableInv(OnFeature(s, data, io))
  {
    var t := Answered(s);
    TableFollows(s, t);
    if data.Some? {
      SubscribeKeepsRequest(OpenPhase(t), 0, false, io);
      TableFollows(t, OnFeature(s, data, io));
    }
  }

  /** Changing one slot, but not its place, keeps the order if its descriptor handles are still its own. */
  lemma UpdateTidy(slots: seq<Slot>, seen: int, last: int, i: nat, slot: Slot)
    requires Tidy(slots, seen, last) && i < |slots| && OwnHandles(slot)
    requires slot.valueHandle == slots[i].valueHandle && slot.endHandle == slots[i].endHandle
    ensures Tidy(slots[i := slot], seen, last)
  {
  }

  lemma DescriptorTable(s: State, handle: int, kind: DescriptorKind)
    requires TableInv(s) && Legal(s, Descriptor(handle, kind))
    ensures TableInv(OnDescriptor(s, handle, kind))
  {
    var slot := s.slots[s.flags.current];
    assert OwnHandles(slot);
    UpdateTidy(s.slots, s.lastHandle, s.service.last, s.flags.current, slot.(cccHandle := handle));
    UpdateTidy(s.slots, s.lastHandle, s.service.last, s.flags.current, slot.(refHandle := handle));
  }

  lemma DescriptorsEndTable(s: State, io: Io)
    requires TableInv(s) && s.env.request.DescriptorRequest?
    ensures TableInv(OnDescriptorsEnd(s, io))
  {
    TableFollows(s, Answered(s));
    if s.flags.current < |s.slots| && s.slots[s.flags.current].refHandle == 0 {
      WalkTable(Answered(s), io);
    }
  }

  lemma SubscribedTable(s: State, i: nat, subscribed: bool)
    requires TableInv(s) && i < |s.slots|
    ensures TableInv(s.(slots := s.slots[i := s.slots[i].(subscribed := subscribed)]))
  {
    assert OwnHandles(s.slots[i]);
    UpdateTidy(s.slots, s.lastHandle, s.service.last, i, s.slots[i].(subscribed := subscribed));
  }

  /** finalize_subscription_phase and fail_discovery do not touch the table or the open request. */
  lemma EndingKeepsTable(s: State, reason: Reason)
    requires TableInv(s)
    ensures TableInv(Finalize(s)) && TableInv(Fail(s, reason))
  {
  }

  lemma AnswerTable(s: State, i: nat, err: int)
    requires TableInv(s)
    ensures TableInv(OnSubscribed(s, i, err))
  {
    if i < |s.slots| {
      if err == 0 {
        SubscribedTable(s, i, true);
      }
      assert TableInv(Recorded(s, i, err));
      EndingKeepsTable(Recorded(s, i, err), SubscribeFailed);
    }
  }

  lemma StepKeepsTable(s: State, op: Op)
    requires TableInv(s) && Legal(s, op)
    ensures TableInv(Step(s, op))
  {
    match op
    case ServiceFound(first, last, io) =>
    case NoService =>
    case Characteristic(handle, value, props, isReport, io) =>
      CharacteristicTable(s, handle, value, props, isReport, io);
    case CharacteristicsEnd(io) =>
      TableFollows(s, Answered(s));
      if s.slots != [] {
        BeginDescriptorsTable(Answered(s), io);
      }
    case Descriptor(handle, kind) => DescriptorTable(s, handle, kind);
    case DescriptorsEnd(io) => DescriptorsEndTable(s, io);
    case Reference(err, data, io) => OnReferenceTable(s, err, data, io);
    case Feature(_, data, io) => OnFeatureTable(s, data, io);
    case Subscribed(index, err) => AnswerTable(s, index, err);
    case Unsubscribed(index) =>
      if index < |s.slots| {
        SubscribedTable(s, index, false);
      }
  }

  /**
   In every legal session at most 8 slots are filled, each value handle lies at or before its slot's
   end, slots are disjoint and ascending, and descriptor handles lie in their own slot.
   */
  lemma {:induction false} TableStaysOrdered(io: Io, ops: seq<Op>)
    requires LegalRun(io, ops)
    ensures TableInv(Run(io, ops))
  {
    if ops != [] {
      TableStaysOrdered(io, ops[..|ops| - 1]);
      StepKeepsTable(Run(io, ops[..|ops| - 1]), ops[|ops| - 1]);
    }
  }

  /** Slot `a` comes before slot `b` and has no handle in common with it. */
  predicate Apart(a: Slot, b: Slot) {
    && {a.cccHandle, a.refHandle} * {b.cccHandle, b.refHandle} <= {0}
    && a.valueHandle < b.valueHandle && a.cccHandle < b.valueHandle && a.refHandle < b.valueHandle
  }

  /** No CCC or report-reference handle is shared by two slots, nor with another slot's value. */
  lemma HandlesNeverShared(io: Io, ops: seq<Op>)
    requires LegalRun(io, ops)
    ensures var slots := Run(io, ops).slots; forall i, j :: 0 <= i < j < |slots| ==> Apart(slots[i], slots[j])
  {
    TableStaysOrdered(io, ops);
    var slots := Run(io, ops).slots;
    forall i, j | 0 <= i < j < |slots| ensures Apart(slots[i], slots[j]) {
      assert OwnHandles(slots[i]) && OwnHandles(slots[j]);
    }
  }

  // ---------- Bounded work ----------

  /** How many calls may have been made, by the request that is open. */
  ghost predicate Budget(s: State) {
    var n := |s.slots|;
    var calls := s.env.calls;
    && s.env.phases <= 1
    && (s.env.phases == 1 ==> s.env.request.NoRequest? && calls <= 3 + 3 * n)
    && (s.env.phases == 0 ==>
          match s.env.request
          case ServiceRequest => calls == 1
          case CharacteristicRequest => calls == 2
          case DescriptorRequest(i) => i == s.flags.current < n && calls <= 3 + 2 * i
          case ReferenceRequest(i) => i == s.flags.current < n && calls <= 4 + 2 * i
          case FeatureRequest => calls <= 3 + 2 * n
          case NoRequest => calls <= 3 + 2 * n)
  }

  lemma {:induction false} SubscribeBudget(s: State, i: nat, saw: bool, io: Io)
    requires i <= |s.slots| <= MAX_REPORTS
    ensures var t := SubscribeFrom(s, i, saw, io).0;
            && t.env.calls <= s.env.calls + |s.slots| - i
            && t.env.phases == s.env.phases && t.env.request == s.env.request
    decreases |s.slots| - i
  {
    SubscribeKeepsRequest(s, i, saw, io);
    if i < |s.slots| {
      SubscribeBudget(s, i + 1, saw, io);
      SubscribeBudget(Subscribe(s, i, io.subscribe[i]), i + 1, saw || s.slots[i].role.KeyboardInput?, io);
    }
  }

  lemma SubscriptionsBudget(s: State, io: Io)
    requires |s.slots| <= MAX_REPORTS && s.env.phases == 0 && s.env.request.NoRequest?
    requires s.env.calls <= 3 + 2 * |s.slots|
    ensures Budget(StartSubscriptions(s, io).0)
  {
    SubscribeBudget(OpenPhase(s), 0, false, io);
  }

  /** After the last report: the mouse feature is read, or the subscriptions start at once. */
  lemma LastReportBudget(t: State, io: Io)
    requires |t.slots| <= MAX_REPORTS && t.env.phases == 0 && t.env.request.NoRequest?
    requires t.env.calls <= 2 + 2 * |t.slots|
    ensures Budget(StartFeatureRead(t, io).0)
    ensures StartFeatureRead(t, io).1 != OK ==> Budget(StartSubscriptions(StartFeatureRead(t, io).0, io).0)
    ensures Budget(StartSubscriptions(t, io).0)
  {
    SubscriptionsBudget(t, io);
    if StartFeatureRead(t, io).1 != OK {
      SubscriptionsBudget(StartFeatureRead(t, io).0, io);
    }
  }

  lemma {:induction false} WalkBudget(s: State, io: Io)
    requires s.flags.current < |s.slots| <= MAX_REPORTS && s.env.phases == 0 && s.env.request.NoRequest?
    requires s.env.calls <= 4 + 2 * s.flags.current
    ensures Budget(AdvanceAfterReference(s, io).0)
    decreases 2 * (|s.slots| - s.flags.current)
  {
    var t := s.(flags := s.flags.(current := s.flags.current + 1));
    if t.flags.current < |t.slots| {
      DescriptorsBudget(t, io);
    } else {
      LastReportBudget(t, io);
    }
  }

  lemma {:induction false} DescriptorsBudget(s: State, io: Io)
    requires s.flags.current < |s.slots| <= MAX_REPORTS && s.env.phases == 0 && s.env.request.NoRequest?
    requires s.env.calls <= 2 + 2 * s.flags.current
    ensures Budget(StartDescriptors(s, io).0)
    decreases 2 * (|s.slots| - s.flags.current) + 1
  {
    if s.slots[s.flags.current].valueHandle >= s.slots[s.flags.current].endHandle {
      WalkBudget(s, io);
    }
  }

  lemma BeginDescriptorsBudget(s: State, io: Io)
    requires 0 < |s.slots| <= MAX_REPORTS && s.env.phases == 0 && s.env.request.NoRequest? && s.env.calls <= 2
    ensures Budget(BeginDescriptors(s, io))
  {
    DescriptorsBudget(s.(flags := s.flags.(current := 0)), io);
    WalkKeepsRequest(s.(flags := s.flags.(current := 0)), io);
    var (t, status) := StartDescriptors(s.(flags := s.flags.(current := 0)), io);
    if status != OK {
      FailedWalkClosed(s.(flags := s.flags.(current := 0)), io);
    }
  }

  /** A walk that reports an error has left no request open. */
  lemma {:induction false} FailedWalkClosed(s: State, io: Io)
    requires s.flags.current < |s.slots| <= MAX_REPORTS && s.env.request.NoRequest?
    ensures AdvanceAfterReference(s, io).1 != OK ==> AdvanceAfterReference(s, io).0.env.request.NoRequest?
    ensures StartDescriptors(s, io).1 != OK ==> StartDescriptors(s, io).0.env.request.NoRequest?
    decreases |s.slots| - s.flags.current
  {
    var t := s.(flags := s.flags.(current := s.flags.current + 1));
    if t.flags.current < |t.slots| {
      FailedWalkClosed(t, io);
    } else {
      var u := if t.profile.feature then StartFeatureRead(t, io).0 else t;
      if u.env.request.NoRequest? {
        SubscribeKeepsRequest(OpenPhase(u), 0, false, io);
      }
    }
  }

  lemma CharacteristicBudget(s: State, handle: int, value: int, props: Props, isReport: bool, io: Io)
    requires Budget(s) && |s.slots| <= MAX_REPORTS && s.env.request.CharacteristicRequest?
    ensures Budget(OnCharacteristic(s, handle, value, props, isReport, io))
  {
    if |s.slots| < MAX_REPORTS {
      var closed := CloseLastSlot(s.slots, handle);
      var slots := if isReport then closed + [NewSlot(props, value, s.service.last)] else closed;
      var t := s.(slots := slots, lastHandle := value);
      if value >= s.service.last && slots != [] {
        BeginDescriptorsBudget(Answered(t), io);
      }
    }
  }

  lemma DescriptorsEndBudget(s: State, io: Io)
    requires Budget(s) && |s.slots| <= MAX_REPORTS && s.env.request.DescriptorRequest?
    ensures Budget(OnDescriptorsEnd(s, io))
  {
    if s.slots[s.flags.current].refHandle == 0 {
      WalkBudget(Answered(s), io);
    }
  }

  lemma ReferenceBudget(s: State, err: int, data: Option<seq<Byte>>, io: Io)
    requires Budget(s) && |s.slots| <= MAX_REPORTS && s.env.request.ReferenceRequest?
    ensures Budget(OnReference(s, err, data, io))
  {
    var t := Answered(s);
    if data.Some? {
      if err != 0 || |data.value| < 2 {
        WalkBudget(t, io);
      } else {
        WalkBudget(StoreReference(t, data.value[0] as int, data.value[1] as int), io);
      }
    }
  }

  lemma FeatureBudget(s: State, data: Option<seq<Byte>>, io: Io)
    requires Budget(s) && |s.slots| <= MAX_REPORTS && s.env.request.FeatureRequest?
    ensures Budget(OnFeature(s, data, io))
  {
    if data.Some? {
      SubscriptionsBudget(Answered(s), io);
    }
  }

  lemma ServiceBudget(s: State, first: int, last: int, io: Io)
    requires Budget(s) && s.env.request.ServiceRequest?
    ensures Budget(OnServiceFound(s, first, last, io))
  {
  }

  lemma CharacteristicsEndBudget(s: State, io: Io)
    requires Budget(s) && |s.slots| <= MAX_REPORTS && s.env.request.CharacteristicRequest?
    ensures Budget(OnCharacteristicsEnd(s, io))
  {
    if s.slots != [] {
      BeginDescriptorsBudget(Answered(s), io);
    }
  }

  lemma QuietFailureBudget(s: State)
    requires Budget(s) && s.env.request.ServiceRequest?
    ensures Budget(Fail(Answered(s), ServiceMissing))
  {
  }

  /** A descriptor or a lost subscription makes no call. */
  lemma QuietBudget(s: State, handle: int, kind: DescriptorKind, i: nat)
    requires Budget(s)
    ensures Budget(OnDescriptor(s, handle, kind)) && Budget(OnUnsubscribed(s, i))
  {
  }

  lemma EndingKeepsBudget(s: State, reason: Reason)
    requires Budget(s)
    ensures Budget(Finalize(s)) && Budget(Fail(s, reason))
  {
  }

  lemma RecordedBudget(s: State, i: nat, err: int)
    requires Budget(s) && i < |s.slots|
    ensures Budget(Recorded(s, i, err))
  {
  }

  lemma AnswerBudget(s: State, i: nat, err: int)
    requires Budget(s)
    ensures Budget(OnSubscribed(s, i, err))
  {
    if i < |s.slots| {
      RecordedBudget(s, i, err);
      EndingKeepsBudget(Recorded(s, i, err), SubscribeFailed);
    }
  }

  lemma StepKeepsBudget(s: State, op: Op)
    requires Budget(s) && |s.slots| <= MAX_REPORTS && Legal(s, op)
    ensures Budget(Step(s, op))
  {
    match op
    case ServiceFound(first, last, io) => ServiceBudget(s, first, last, io);
    case NoService => QuietFailureBudget(s);
    case Characteristic(handle, value, props, isReport, io) =>
      CharacteristicBudget(s, handle, value, props, isReport, io);
    case CharacteristicsEnd(io) => CharacteristicsEndBudget(s, io);
    case Descriptor(handle, kind) => QuietBudget(s, handle, kind, 0);
    case DescriptorsEnd(io) => DescriptorsEndBudget(s, io);
    case Reference(err, data, io) => ReferenceBudget(s, err, data, io);
    case Feature(_, data, io) => FeatureBudget(s, data, io);
    case Subscribed(index, err) => AnswerBudget(s, index, err);
    case Unsubscribed(index) => QuietBudget(s, 0, OtherDescriptor, index);
  }

  lemma {:induction false} BudgetHolds(io: Io, ops: seq<Op>)
    requires LegalRun(io, ops)
    ensures Budget(Run(io, ops))
  {
    if ops != [] {
      BudgetHolds(io, ops[..|ops| - 1]);
      StepKeepsBudget(Run(io, ops[..|ops| - 1]), ops[|ops| - 1]);
    }
  }

  /**
   A session makes at most 3 + 3n GATT calls when it finds n reports, so 27 at most, and starts its
   subscriptions at most once, in whatever order the answers come and whichever calls fail.
   */
  lemma CallsAreBounded(io: Io, ops: seq<Op>)
    requires LegalRun(io, ops)
    ensures Run(io, ops).env.phases <= 1
    ensures Run(io, ops).env.calls <= 3 + 3 * |Run(io, ops).slots| <= 27
  {
    BudgetHolds(io, ops);
  }
}
