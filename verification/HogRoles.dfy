/**
 What the bytes of a report reference decide in a discovery session of HogDiscovery: the role of a
 report, whether it is subscribed to, what is announced for it, and the id under which the host sees it.
 */
module HogRoles {
  import opened Basics
  import opened HogDiscovery
  import B = Bridge
  import H = HogReadiness
  import HogInput
  import P = HogDiscoveryProofs

  /** The role of a report with this id and this type (1 input, 2 output, 3 feature). */
  predicate HasRole(role: Role, id: int, kind: int) {
    && (role.KeyboardInput? <==> id == 1 && kind == 1)
    && (role.ConsumerInput? <==> id == 2 && kind == 1)
    && (role.MouseInput? <==> id == 3 && kind == 1)
    && (role.LedOutput? <==> id == 1 && kind == 2)
    && (role.MouseFeature? <==> id == 3 && kind == 3)
  }

  // ---------- What was found about each report ----------

  /** A slot's descriptors, its reference, and whether a subscription was granted, as the callbacks brought them. */
  datatype Found = Found(ccc: int, ref: int, id: int, kind: int, granted: bool)

  const NOTHING: Found := Found(0, 0, 0, 0, false)

  type Findings = map<nat, Found>

  function At(found: Findings, i: nat): Found {
    if i in found then found[i] else NOTHING
  }

  /** What this callback adds; the request it answers says for which slot. */
  function Add(found: Findings, request: Request, op: Op): Findings {
    match op
    case Descriptor(handle, kind) =>
      if !request.DescriptorRequest? || kind.OtherDescriptor? then found
      else
        var f := At(found, request.index);
        found[request.index := if kind.Ccc? then f.(ccc := handle) else f.(ref := handle)]
    case Reference(err, data, _) =>
      if !request.ReferenceRequest? || err != 0 || data.None? || |data.value| < 2 then found
      else found[request.index := At(found, request.index).(id := data.value[0] as int, kind := data.value[1] as int)]
    case Subscribed(i, err) => if err == 0 then found[i := At(found, i).(granted := true)] else found
    case Unsubscribed(i) => if i in found then found[i := found[i].(granted := false)] else found
    case _ => found
  }

  function FoundBy(io: Io, ops: seq<Op>): Findings {
    if ops == [] then map[]
    else Add(FoundBy(io, ops[..|ops| - 1]), Run(io, ops[..|ops| - 1]).env.request, ops[|ops| - 1])
  }

  ghost predicate SlotIs(slot: Slot, f: Found) {
    && slot.cccHandle == f.ccc && slot.refHandle == f.ref
    && slot.reportId == f.id && slot.reportType == f.kind && HasRole(slot.role, f.id, f.kind)
    && slot.subscribed == f.granted
  }

  /** Every slot is what was found for it, and a request about a slot is about the current one. */
  ghost predicate TableIs(s: State, found: Findings) {
    && |s.slots| <= MAX_REPORTS
    && (forall i :: 0 <= i < |s.slots| ==> SlotIs(s.slots[i], At(found, i)))
    && (forall i :: i in found ==> i < |s.slots|)
    && (s.env.request.DescriptorRequest? || s.env.request.ReferenceRequest? ==>
          s.env.request.index == s.flags.current < |s.slots|)
  }

  lemma {:induction false} WalkAsksForCurrent(s: State, io: Io)
    requires s.flags.current < |s.slots| <= MAX_REPORTS && s.env.request.NoRequest?
    ensures var t := AdvanceAfterReference(s, io).0;
            t.env.request.DescriptorRequest? ==> t.env.request.index == t.flags.current < |t.slots|
    ensures var t := StartDescriptors(s, io).0;
            t.env.request.DescriptorRequest? ==> t.env.request.index == t.flags.current < |t.slots|
    decreases |s.slots| - s.flags.current
  {
    var t := s.(flags := s.flags.(current := s.flags.current + 1));
    if t.flags.current < |t.slots| {
      WalkAsksForCurrent(t, io);
    } else {
      var u := if t.profile.feature then StartFeatureRead(t, io).0 else t;
      if u.env.request.NoRequest? {
        P.SubscribeKeepsRequest(OpenPhase(u), 0, false, io);
      }
    }
  }

  lemma WalkKeepsTable(s: State, io: Io, found: Findings)
    requires TableIs(s, found) && s.env.request.NoRequest? && s.flags.current < |s.slots|
    ensures TableIs(AdvanceAfterReference(s, io).0, found)
    ensures TableIs(StartDescriptors(s, io).0, found)
  {
    WalkAsksForCurrent(s, io);
    P.WalkKeepsRequest(s, io);
  }

  lemma BeginKeepsTable(s: State, io: Io, found: Findings)
    requires TableIs(s, found) && s.env.request.NoRequest? && s.slots != []
    ensures TableIs(BeginDescriptors(s, io), found)
  {
    WalkKeepsTable(s.(flags := s.flags.(current := 0)), io, found);
  }

  lemma CharacteristicKeepsTable(s: State, handle: int, value: int, props: Props, isReport: bool, io: Io,
    found: Findings)
    requires TableIs(s, found) && s.env.request.CharacteristicRequest?
    ensures TableIs(OnCharacteristic(s, handle, value, props, isReport, io), found)
  {
    if |s.slots| < MAX_REPORTS {
      var closed := CloseLastSlot(s.slots, handle);
      var slots := if isReport then closed + [NewSlot(props, value, s.service.last)] else closed;
      assert forall i :: 0 <= i < |s.slots| ==> SlotIs(closed[i], At(found, i));
      assert |slots| > |s.slots| ==> At(found, |s.slots|) == NOTHING;
      var t := s.(slots := slots, lastHandle := value);
      assert TableIs(t, found);
      if value >= s.service.last && slots != [] {
        BeginKeepsTable(Answered(t), io, found);
      }
    }
  }

  lemma ReferenceKeepsTable(s: State, err: int, data: Option<seq<Byte>>, io: Io, found: Findings)
    requires TableIs(s, found) && s.env.request.ReferenceRequest?
    ensures TableIs(OnReference(s, err, data, io), Add(found, s.env.request, Reference(err, data, io)))
  {
    var t := Answered(s);
    if data.Some? {
      if err != 0 || |data.value| < 2 {
        WalkKeepsTable(t, io, found);
      } else {
        var u := StoreReference(t, data.value[0] as int, data.value[1] as int);
        assert TableIs(u, Add(found, s.env.request, Reference(err, data, io)));
        WalkKeepsTable(u, io, Add(found, s.env.request, Reference(err, data, io)));
      }
    }
  }

  lemma DescriptorsEndKeepsTable(s: State, io: Io, found: Findings)
    requires TableIs(s, found) && s.env.request.DescriptorRequest?
    ensures TableIs(OnDescriptorsEnd(s, io), found)
  {
    if s.slots[s.flags.current].refHandle == 0 {
      WalkKeepsTable(Answered(s), io, found);
    }
  }

  /** One slot's flag changes as the finding does. */
  lemma FlagKeepsTable(s: State, t: State, found: Findings, i: nat, granted: bool)
    requires TableIs(s, found) && i < |s.slots|
    requires t.slots == s.slots[i := s.slots[i].(subscribed := granted)]
    requires t.env.request == s.env.request && t.flags.current == s.flags.current
    ensures TableIs(t, found[i := At(found, i).(granted := granted)])
  {
  }

  lemma SubscribedKeepsTable(s: State, i: nat, err: int, found: Findings)
    requires TableIs(s, found) && i < |s.slots|
    ensures TableIs(OnSubscribed(s, i, err), if err == 0 then found[i := At(found, i).(granted := true)] else found)
  {
    var t := OnSubscribed(s, i, err);
    if err == 0 {
      FlagKeepsTable(s, t, found, i, true);
    }
  }

  lemma UnsubscribedKeepsTable(s: State, i: nat, found: Findings)
    requires TableIs(s, found) && i < |s.slots|
    ensures TableIs(OnUnsubscribed(s, i), if i in found then found[i := found[i].(granted := false)] else found)
  {
    FlagKeepsTable(s, OnUnsubscribed(s, i), found, i, false);
  }

  lemma StepKeepsTable(s: State, op: Op, found: Findings)
    requires H.Session(s) && TableIs(s, found) && Legal(s, op)
    ensures TableIs(Step(s, op), Add(found, s.env.request, op))
  {
    match op
    case ServiceFound(_, _, _) =>
    case NoService =>
    case Characteristic(handle, value, props, isReport, io) =>
      CharacteristicKeepsTable(s, handle, value, props, isReport, io, found);
    case CharacteristicsEnd(io) =>
      if s.slots != [] {
        BeginKeepsTable(Answered(s), io, found);
      }
    case Descriptor(_, _) =>
    case DescriptorsEnd(io) => DescriptorsEndKeepsTable(s, io, found);
    case Reference(err, data, io) => ReferenceKeepsTable(s, err, data, io, found);
    case Feature(_, data, io) => P.SubscribeKeepsRequest(OpenPhase(Answered(s)), 0, false, io);
    case Subscribed(i, err) => SubscribedKeepsTable(s, i, err, found);
    case Unsubscribed(i) =>
      if i < |s.slots| {
        UnsubscribedKeepsTable(s, i, found);
      }
  }

  /**
   Over every legal session each slot holds just the descriptors and the reference bytes that were
   reported for it, has the role of its reference - none, if it was not read - and is subscribed exactly
   from a granted subscription to its end.
   */
  lemma {:induction false} TableIsWhatWasFound(io: Io, ops: seq<Op>)
    requires LegalRun(io, ops)
    ensures TableIs(Run(io, ops), FoundBy(io, ops))
  {
    if ops != [] {
      TableIsWhatWasFound(io, ops[..|ops| - 1]);
      H.SessionHolds(io, ops[..|ops| - 1]);
      StepKeepsTable(Run(io, ops[..|ops| - 1]), ops[|ops| - 1], FoundBy(io, ops[..|ops| - 1]));
    }
  }

  // ---------- Who is subscribed to ----------

  /** An input report with id 1 to 3 that can notify and has a CCC descriptor. */
  predicate Eligible(slot: Slot) {
    slot.reportType == 1 && 1 <= slot.reportId <= 3 && slot.props.notify && slot.cccHandle != 0
  }

  predicate IsKeyboard(slot: Slot) {
    slot.reportType == 1 && slot.reportId == 1
  }

  /** A keyboard that cannot be subscribed to ends the loop at once. */
  predicate Stops(slot: Slot, err: int) {
    IsKeyboard(slot) && (!slot.props.notify || slot.cccHandle == 0 || (err != 0 && err != -120))
  }

  ghost predicate StopsWithin(slots: seq<Slot>, io: Io, from: nat, to: int)
    requires to <= |slots| <= MAX_REPORTS
  {
    exists j :: from <= j < to && Stops(slots[j], io.subscribe[j])
  }

  ghost predicate KeyboardFrom(slots: seq<Slot>, from: nat) {
    exists j :: from <= j < |slots| && IsKeyboard(slots[j])
  }

  /** The slots a loop from `from` on subscribes to. */
  ghost function Chosen(slots: seq<Slot>, io: Io, from: nat): set<nat>
    requires |slots| <= MAX_REPORTS
  {
    set k: nat | k < |slots| && from <= k && Eligible(slots[k]) && !StopsWithin(slots, io, from, k)
  }

  ghost predicate RolesOk(slots: seq<Slot>) {
    forall i :: 0 <= i < |slots| ==> HasRole(slots[i].role, slots[i].reportId, slots[i].reportType)
  }

  lemma ChosenStep(slots: seq<Slot>, io: Io, i: nat)
    requires i < |slots| <= MAX_REPORTS
    ensures var rest := if Stops(slots[i], io.subscribe[i]) then {} else Chosen(slots, io, i + 1);
            Chosen(slots, io, i) == (if Eligible(slots[i]) then {i} else {}) + rest
    ensures StopsWithin(slots, io, i, |slots|) <==>
              Stops(slots[i], io.subscribe[i]) || StopsWithin(slots, io, i + 1, |slots|)
    ensures KeyboardFrom(slots, i) <==> IsKeyboard(slots[i]) || KeyboardFrom(slots, i + 1)
  {
    forall k | i < k <= |slots|
      ensures StopsWithin(slots, io, i, k) <==> Stops(slots[i], io.subscribe[i]) || StopsWithin(slots, io, i + 1, k)
    {
      if StopsWithin(slots, io, i, k) && !Stops(slots[i], io.subscribe[i]) {
        var j :| i <= j < k && Stops(slots[j], io.subscribe[j]);
        assert i + 1 <= j;
      }
    }
    if KeyboardFrom(slots, i) && !IsKeyboard(slots[i]) {
      var j :| i <= j < |slots| && IsKeyboard(slots[j]);
      assert i + 1 <= j;
    }
  }

  /** What the loop posts: a failure if a keyboard stops it, or if it meets none. */
  ghost function LoopPosts(slots: seq<Slot>, io: Io, i: nat, saw: bool): seq<Post>
    requires |slots| <= MAX_REPORTS
  {
    if StopsWithin(slots, io, i, |slots|) then [HidFailure(SubscribeFailed)]
    else if !saw && !KeyboardFrom(slots, i) then [HidFailure(ReportMissing)]
    else []
  }

  /** `t` is `s` after a loop from slot `i` on. */
  ghost predicate Asked(s: State, i: nat, saw: bool, io: Io, t: State)
    requires |s.slots| <= MAX_REPORTS
  {
    && t.env.asked == s.env.asked + Chosen(s.slots, io, i)
    && t.env.waiting == s.env.waiting + Accepted(s.slots, io, i)
    && t.env.posts == s.env.posts + LoopPosts(s.slots, io, i, saw)
  }

  /** Those of them that the stack accepts and will answer. */
  ghost function Accepted(slots: seq<Slot>, io: Io, from: nat): set<nat>
    requires |slots| <= MAX_REPORTS
  {
    set k | k in Chosen(slots, io, from) && io.subscribe[k] == 0
  }

  lemma AcceptedStep(slots: seq<Slot>, io: Io, i: nat)
    requires i < |slots| <= MAX_REPORTS
    ensures var rest := if Stops(slots[i], io.subscribe[i]) then {} else Accepted(slots, io, i + 1);
            Accepted(slots, io, i) == (if Eligible(slots[i]) && io.subscribe[i] == 0 then {i} else {}) + rest
  {
    ChosenStep(slots, io, i);
  }

  lemma SlotByBytes(slot: Slot)
    requires HasRole(slot.role, slot.reportId, slot.reportType)
    ensures Wanted(slot) && CanSubscribe(slot) <==> Eligible(slot)
    ensures Wanted(slot) && slot.role.KeyboardInput? <==> IsKeyboard(slot)
  {
  }

  lemma LoopEnds(s: State, saw: bool, io: Io)
    requires |s.slots| <= MAX_REPORTS && (saw ==> s.flags.pending > 0)
    ensures Asked(s, |s.slots|, saw, io, SubscribeFrom(s, |s.slots|, saw, io).0)
  {
    assert s.env.posts + [] == s.env.posts;
  }

  /** A slot that is passed over. */
  lemma LoopSkips(s: State, i: nat, saw: bool, io: Io, t: State)
    requires i < |s.slots| <= MAX_REPORTS && Asked(s, i + 1, saw, io, t)
    requires !Eligible(s.slots[i]) && !IsKeyboard(s.slots[i])
    ensures Asked(s, i, saw, io, t)
  {
    ChosenStep(s.slots, io, i);
    AcceptedStep(s.slots, io, i);
  }

  /** A keyboard that ends the loop. */
  lemma LoopStops(s: State, i: nat, saw: bool, io: Io, t: State)
    requires i < |s.slots| <= MAX_REPORTS && Stops(s.slots[i], io.subscribe[i])
    requires t == Fail(if Eligible(s.slots[i]) then Subscribe(s, i, io.subscribe[i]) else s, SubscribeFailed)
    ensures Asked(s, i, saw, io, t)
  {
    ChosenStep(s.slots, io, i);
    AcceptedStep(s.slots, io, i);
  }

  /** A slot that is subscribed to, successfully or as an input the session can do without. */
  lemma LoopAsks(s: State, i: nat, saw: bool, io: Io, t: State)
    requires i < |s.slots| <= MAX_REPORTS && Eligible(s.slots[i]) && !Stops(s.slots[i], io.subscribe[i])
    requires Asked(Subscribe(s, i, io.subscribe[i]), i + 1, saw || IsKeyboard(s.slots[i]), io, t)
    ensures Asked(s, i, saw, io, t)
  {
    ChosenStep(s.slots, io, i);
    AcceptedStep(s.slots, io, i);
  }

  lemma {:induction false} LoopAsksExactly(s: State, i: nat, saw: bool, io: Io)
    requires i <= |s.slots| <= MAX_REPORTS && RolesOk(s.slots) && (saw ==> s.flags.pending > 0)
    ensures Asked(s, i, saw, io, SubscribeFrom(s, i, saw, io).0)
    decreases |s.slots| - i
  {
    if i == |s.slots| {
      LoopEnds(s, saw, io);
    } else {
      var slot, t := s.slots[i], Subscribe(s, i, io.subscribe[i]);
      SlotByBytes(slot);
      if Stops(slot, io.subscribe[i]) {
        LoopStops(s, i, saw, io, SubscribeFrom(s, i, saw, io).0);
      } else if Eligible(slot) {
        LoopAsksExactly(t, i + 1, saw || IsKeyboard(slot), io);
        LoopAsks(s, i, saw, io, SubscribeFrom(t, i + 1, saw || IsKeyboard(slot), io).0);
      } else {
        LoopAsksExactly(s, i + 1, saw, io);
        LoopSkips(s, i, saw, io, SubscribeFrom(s, i + 1, saw, io).0);
      }
    }
  }

  /**
   The subscriptions of a session go exactly to the eligible reports before the first keyboard that cannot
   be subscribed to - to all of them if there is none - and a failure is posted at once exactly if there
   is such a keyboard, or no keyboard at all.
   */
  lemma SubscribesExactly(s: State, io: Io)
    requires |s.slots| <= MAX_REPORTS && RolesOk(s.slots)
    ensures var t := StartSubscriptions(s, io).0;
            var stopped := StopsWithin(s.slots, io, 0, |s.slots|);
            && t.env.asked == s.env.asked + Chosen(s.slots, io, 0)
            && (!stopped ==> forall k :: 0 <= k < |s.slots| ==> (k in Chosen(s.slots, io, 0) <==> Eligible(s.slots[k])))
            && t.env.posts ==
                 s.env.posts
                 + (if stopped then [HidFailure(SubscribeFailed)]
                    else if !KeyboardFrom(s.slots, 0) then [HidFailure(ReportMissing)] else [])
  {
    LoopAsksExactly(OpenPhase(s), 0, false, io);
  }

  /** The slots subscribed to are the eligible ones, up to a keyboard whose failure ended the loop. */
  ghost predicate AskedUpTo(s: State, n: nat) {
    && n <= |s.slots|
    && (forall k: nat :: k in s.env.asked <==> k < n && Eligible(s.slots[k]))
    && (n < |s.slots| ==> n > 0 && IsKeyboard(s.slots[n - 1]) && s.env.posts != []
                          && s.env.posts[0] == HidFailure(SubscribeFailed))
  }

  ghost predicate AskedInv(s: State) {
    && (s.env.phases == 0 ==> s.env.asked == {})
    && (s.env.phases > 0 ==> exists n :: AskedUpTo(s, n))
  }

  /** The first slot that stops the loop. */
  lemma {:induction false} FirstStop(slots: seq<Slot>, io: Io, i: nat) returns (j: nat)
    requires |slots| <= MAX_REPORTS && StopsWithin(slots, io, i, |slots|)
    ensures i <= j < |slots| && Stops(slots[j], io.subscribe[j]) && !StopsWithin(slots, io, i, j)
    decreases |slots| - i
  {
    if Stops(slots[i], io.subscribe[i]) {
      j := i;
    } else {
      ChosenStep(slots, io, i);
      j := FirstStop(slots, io, i + 1);
      assert !StopsWithin(slots, io, i, j);
    }
  }

  /** No subscription has been asked for and nothing posted. */
  ghost predicate Unasked(s: State) {
    s.env.phases == 0 && s.env.asked == {} && s.env.posts == [] && |s.slots| <= MAX_REPORTS && RolesOk(s.slots)
  }

  lemma StartAsks(s: State, io: Io)
    requires Unasked(s)
    ensures AskedInv(StartSubscriptions(s, io).0)
  {
    var t := StartSubscriptions(s, io).0;
    SubscribesExactly(s, io);
    StartOpensPhase(s, io);
    if StopsWithin(s.slots, io, 0, |s.slots|) {
      var j := FirstStop(s.slots, io, 0);
      assert AskedUpTo(t, j + 1);
    } else {
      assert AskedUpTo(t, |s.slots|);
    }
  }

  lemma {:induction false} LoopKeepsPhases(s: State, i: nat, saw: bool, io: Io)
    requires |s.slots| <= MAX_REPORTS
    ensures var t := SubscribeFrom(s, i, saw, io).0; t.env.phases == s.env.phases && t.profile == s.profile
    decreases |s.slots| - i
  {
    if i < |s.slots| {
      if Wanted(s.slots[i]) && CanSubscribe(s.slots[i]) {
        LoopKeepsPhases(Subscribe(s, i, io.subscribe[i]), i + 1, saw || s.slots[i].role.KeyboardInput?, io);
      } else {
        LoopKeepsPhases(s, i + 1, saw, io);
      }
    }
  }

  lemma StartOpensPhase(s: State, io: Io)
    requires |s.slots| <= MAX_REPORTS
    ensures var t := StartSubscriptions(s, io).0; t.env.phases == s.env.phases + 1 && t.profile == s.profile
  {
    LoopKeepsPhases(OpenPhase(s), 0, false, io);
  }

  lemma EndAsks(s: State, io: Io)
    requires Unasked(s) && s.flags.current + 1 == |s.slots|
    ensures AskedInv(AdvanceAfterReference(s, io).0) && AdvanceAfterReference(s, io).0.profile == s.profile
  {
    var t := s.(flags := s.flags.(current := s.flags.current + 1));
    var u := if t.profile.feature then StartFeatureRead(t, io).0 else t;
    StartAsks(u, io);
    StartOpensPhase(u, io);
  }

  lemma {:induction false} WalkAsks(s: State, io: Io)
    requires Unasked(s) && s.flags.current < |s.slots|
    ensures AskedInv(AdvanceAfterReference(s, io).0) && AdvanceAfterReference(s, io).0.profile == s.profile
    ensures AskedInv(StartDescriptors(s, io).0) && StartDescriptors(s, io).0.profile == s.profile
    decreases |s.slots| - s.flags.current
  {
    if s.flags.current + 1 < |s.slots| {
      WalkAsks(s.(flags := s.flags.(current := s.flags.current + 1)), io);
    } else {
      EndAsks(s, io);
    }
  }

  lemma FailKeepsAsked(s: State, reason: Reason)
    requires AskedInv(s)
    ensures AskedInv(Fail(s, reason))
  {
    if s.env.phases > 0 {
      var n :| AskedUpTo(s, n);
      assert AskedUpTo(Fail(s, reason), n);
    }
  }

  lemma BeginAsks(s: State, io: Io)
    requires Unasked(s) && s.slots != []
    ensures AskedInv(BeginDescriptors(s, io)) && BeginDescriptors(s, io).profile == s.profile
  {
    var t := s.(flags := s.flags.(current := 0));
    WalkAsks(t, io);
    FailKeepsAsked(StartDescriptors(t, io).0, ReportMissing);
  }

  /** A session with a request open has not asked for anything yet. */
  lemma OpenIsUnasked(s: State, found: Findings)
    requires H.Session(s) && TableIs(s, found) && AskedInv(s) && !s.env.request.NoRequest?
    ensures Unasked(s) && Unasked(Answered(s))
  {
  }

  /** Ending a session leaves table and profile, and posts behind what was posted. */
  lemma EndFrame(s: State, reason: Reason)
    ensures forall t | t == Fail(s, reason) || t == Finalize(s) ::
              && t.env.asked == s.env.asked && t.env.phases == s.env.phases && t.slots == s.slots
              && t.profile == s.profile && s.env.posts <= t.env.posts
  {
  }

  ghost predicate SameReports(a: seq<Slot>, b: seq<Slot>) {
    |a| == |b| && forall k :: 0 <= k < |a| ==> a[k].(subscribed := false) == b[k].(subscribed := false)
  }

  lemma RecordedFrame(s: State, i: nat, err: int)
    requires i < |s.slots|
    ensures var t := Recorded(s, i, err);
            && t.env.asked == s.env.asked && t.env.phases == s.env.phases && SameReports(s.slots, t.slots)
            && t.env.posts == s.env.posts
            && t.profile == if err == 0 then SetCapability(s.profile, s.slots[i].role, true) else s.profile
  {
  }

  /** An answer changes no slot's report and posts behind what was posted. */
  lemma AnswerFrame(s: State, op: Op)
    requires (op.Subscribed? || op.Unsubscribed?) && |s.slots| <= MAX_REPORTS
    ensures var t := Step(s, op);
            && t.env.asked == s.env.asked && t.env.phases == s.env.phases && SameReports(s.slots, t.slots)
            && s.env.posts <= t.env.posts
            && t.profile ==
                 if op.index >= |s.slots| || (op.Subscribed? && op.err != 0) then s.profile
                 else SetCapability(s.profile, s.slots[op.index].role, op.Subscribed?)
  {
    if op.Subscribed? && op.index < |s.slots| {
      RecordedFrame(s, op.index, op.err);
      EndFrame(Recorded(s, op.index, op.err), SubscribeFailed);
    }
  }

  lemma AnswerKeepsAsked(s: State, op: Op)
    requires AskedInv(s) && (op.Subscribed? || op.Unsubscribed?) && |s.slots| <= MAX_REPORTS
    ensures AskedInv(Step(s, op))
  {
    AnswerFrame(s, op);
    if s.env.phases > 0 {
      var n :| AskedUpTo(s, n);
      SameReportsAsked(s, Step(s, op), n);
    }
  }

  lemma SameReportsAsked(s: State, t: State, n: nat)
    requires AskedUpTo(s, n) && SameReports(s.slots, t.slots)
    requires t.env.asked == s.env.asked && s.env.posts <= t.env.posts
    ensures AskedUpTo(t, n)
  {
    assert forall k :: 0 <= k < |s.slots| ==>
        Eligible(t.slots[k]) == Eligible(s.slots[k]) && IsKeyboard(t.slots[k]) == IsKeyboard(s.slots[k]) by {
      forall k | 0 <= k < |s.slots|
        ensures Eligible(t.slots[k]) == Eligible(s.slots[k]) && IsKeyboard(t.slots[k]) == IsKeyboard(s.slots[k])
      {
        assert s.slots[k].(subscribed := false) == t.slots[k].(subscribed := false);
      }
    }
  }

  // ---------- What is announced ----------

  predicate Is(slots: seq<Slot>, i: nat, id: int, kind: int) {
    i < |slots| && slots[i].reportId == id && slots[i].reportType == kind
  }

  /** An input is announced when its subscription is granted, any other report when its reference is read. */
  predicate Grants(s: State, op: Op, id: int, kind: int) {
    if kind == 1 then op.Subscribed? && op.err == 0 && Is(s.slots, op.index, id, 1)
    else && op.Reference? && op.err == 0 && op.data.Some? && |op.data.value| >= 2
         && op.data.value[0] as int == id && op.data.value[1] as int == kind
  }

  /** The peer has ended the subscription. */
  predicate Revokes(s: State, op: Op, id: int, kind: int) {
    op.Unsubscribed? && Is(s.slots, op.index, id, kind)
  }

  ghost predicate Announces(s: State, op: Op, before: bool, after: bool, id: int, kind: int) {
    after <==> Grants(s, op, id, kind) || (before && !Revokes(s, op, id, kind))
  }

  ghost predicate AnnouncesAll(s: State, op: Op, t: State) {
    && Announces(s, op, s.profile.keyboard, t.profile.keyboard, 1, 1)
    && Announces(s, op, s.profile.consumer, t.profile.consumer, 2, 1)
    && Announces(s, op, s.profile.mouse, t.profile.mouse, 3, 1)
    && Announces(s, op, s.profile.led, t.profile.led, 1, 2)
    && Announces(s, op, s.profile.feature, t.profile.feature, 3, 3)
  }

  lemma CharacteristicAsks(s: State, op: Op, found: Findings)
    requires H.Session(s) && TableIs(s, found) && AskedInv(s) && Legal(s, op) && op.Characteristic?
    ensures AskedInv(Step(s, op)) && Step(s, op).profile == s.profile
  {
    OpenIsUnasked(s, found);
    if |s.slots| < MAX_REPORTS {
      var closed := CloseLastSlot(s.slots, op.handle);
      var slots := if op.isReport then closed + [NewSlot(op.props, op.value, s.service.last)] else closed;
      assert RolesOk(closed) && RolesOk(slots);
      var t := s.(slots := slots, lastHandle := op.value);
      if op.value >= s.service.last && slots != [] {
        BeginAsks(Answered(t), op.io);
      }
    }
  }

  lemma ReferenceAsks(s: State, op: Op, found: Findings)
    requires H.Session(s) && TableIs(s, found) && AskedInv(s) && Legal(s, op) && op.Reference?
    ensures AskedInv(Step(s, op)) && AnnouncesAll(s, op, Step(s, op))
  {
    OpenIsUnasked(s, found);
    var t := Answered(s);
    if op.data.Some? {
      if op.err != 0 || |op.data.value| < 2 {
        WalkAsks(t, op.io);
      } else {
        ReadReferenceAsks(t, op.data.value[0] as int, op.data.value[1] as int, op.io);
      }
    }
  }

  /** A reference that was read announces an LED or a mouse feature, and the walk goes on. */
  lemma ReadReferenceAsks(s: State, id: int, kind: int, io: Io)
    requires Unasked(s) && s.flags.current < |s.slots|
    ensures var t := AdvanceAfterReference(StoreReference(s, id, kind), io).0;
            && AskedInv(t)
            && t.profile.keyboard == s.profile.keyboard && t.profile.consumer == s.profile.consumer
            && t.profile.mouse == s.profile.mouse
            && t.profile.led == (s.profile.led || (id == 1 && kind == 2))
            && t.profile.feature == (s.profile.feature || (id == 3 && kind == 3))
  {
    StoredAnnounces(s, id, kind);
    StoredUnasked(s, id, kind);
    WalkAsks(StoreReference(s, id, kind), io);
  }

  lemma StoredUnasked(s: State, id: int, kind: int)
    requires Unasked(s) && s.flags.current < |s.slots|
    ensures var u := StoreReference(s, id, kind); Unasked(u) && u.flags == s.flags && |u.slots| == |s.slots|
  {
    assert RolesOk(StoreReference(s, id, kind).slots);
  }

  lemma StoredAnnounces(s: State, id: int, kind: int)
    requires s.flags.current < |s.slots|
    ensures var p := StoreReference(s, id, kind).profile;
            && p.keyboard == s.profile.keyboard && p.consumer == s.profile.consumer && p.mouse == s.profile.mouse
            && p.led == (s.profile.led || (id == 1 && kind == 2))
            && p.feature == (s.profile.feature || (id == 3 && kind == 3))
  {
  }

  lemma OtherAsks(s: State, op: Op, found: Findings)
    requires H.Session(s) && TableIs(s, found) && AskedInv(s) && Legal(s, op)
    requires !op.Characteristic? && !op.Reference? && !op.Subscribed? && !op.Unsubscribed?
    ensures AskedInv(Step(s, op)) && Step(s, op).profile == s.profile
  {
    OpenIsUnasked(s, found);
    var t := Answered(s);
    match op
    case CharacteristicsEnd(io) =>
      if s.slots != [] {
        BeginAsks(t, io);
      }
    case DescriptorsEnd(io) =>
      if s.slots[s.flags.current].refHandle == 0 {
        WalkAsks(t, io);
      }
    case Feature(_, data, io) =>
      StartAsks(t, io);
      StartOpensPhase(t, io);
    case _ =>
  }

  lemma StepAsks(s: State, op: Op, found: Findings)
    requires H.Session(s) && TableIs(s, found) && AskedInv(s) && Legal(s, op)
    ensures AskedInv(Step(s, op)) && AnnouncesAll(s, op, Step(s, op))
  {
    if op.Characteristic? {
      CharacteristicAsks(s, op, found);
    } else if op.Reference? {
      ReferenceAsks(s, op, found);
    } else if op.Subscribed? || op.Unsubscribed? {
      AnswerKeepsAsked(s, op);
      AnswerAnnounces(s, op, found);
    } else {
      OtherAsks(s, op, found);
    }
  }

  /** Setting the capability of a role by the bytes of its reference. */
  lemma CapabilityByBytes(p: Profile, role: Role, enabled: bool, id: int, kind: int)
    requires HasRole(role, id, kind)
    ensures var q := SetCapability(p, role, enabled);
            && q.keyboard == (if id == 1 && kind == 1 then enabled else p.keyboard)
            && q.consumer == (if id == 2 && kind == 1 then enabled else p.consumer)
            && q.mouse == (if id == 3 && kind == 1 then enabled else p.mouse)
            && q.led == (if id == 1 && kind == 2 then enabled else p.led)
            && q.feature == (if id == 3 && kind == 3 then enabled else p.feature)
  {
  }

  lemma AnswerAnnounces(s: State, op: Op, found: Findings)
    requires H.Session(s) && TableIs(s, found) && Legal(s, op) && (op.Subscribed? || op.Unsubscribed?)
    ensures AnnouncesAll(s, op, Step(s, op))
  {
    AnswerFrame(s, op);
    if op.index < |s.slots| {
      var slot := s.slots[op.index];
      assert SlotIs(slot, At(found, op.index));
      CapabilityByBytes(s.profile, slot.role, op.Subscribed?, slot.reportId, slot.reportType);
    }
    if op.Subscribed? {
      assert s.slots[op.index].reportType == 1;
    }
  }

  /**
   Over every legal session: no subscription is asked for before the loop; once it has run, the slots
   asked for are exactly the input reports with id 1 to 3 that can notify and have a CCC descriptor, up to
   a keyboard whose failure was the first thing posted.
   */
  lemma {:induction false} AsksExactly(io: Io, ops: seq<Op>)
    requires LegalRun(io, ops)
    ensures AskedInv(Run(io, ops))
  {
    if ops != [] {
      var front := ops[..|ops| - 1];
      AsksExactly(io, front);
      H.SessionHolds(io, front);
      TableIsWhatWasFound(io, front);
      StepAsks(Run(io, front), ops[|ops| - 1], FoundBy(io, front));
    }
  }

  /** Each capability is what the last callback about such a report made of it. */
  lemma CapabilitiesFollow(io: Io, ops: seq<Op>, op: Op)
    requires LegalRun(io, ops) && Legal(Run(io, ops), op)
    ensures AnnouncesAll(Run(io, ops), op, Step(Run(io, ops), op))
  {
    AsksExactly(io, ops);
    H.SessionHolds(io, ops);
    TableIsWhatWasFound(io, ops);
    StepAsks(Run(io, ops), op, FoundBy(io, ops));
  }

  // ---------- Under which id the host sees a report ----------

  /** A notification of a keyboard, consumer or mouse slot reaches the host under the id of its own reference. */
  lemma HostSeesTheReportId(io: Io, ops: seq<Op>, i: nat, e: HogInput.Event)
    requires LegalRun(io, ops) && i < |Run(io, ops).slots|
    requires e.role == Run(io, ops).slots[i].role && B.Deliverable(e)
    ensures var f := At(FoundBy(io, ops), i);
            f.kind == 1 && 1 <= f.id <= 3 && B.HostReport(e)[0] as int == f.id
  {
    TableIsWhatWasFound(io, ops);
    assert SlotIs(Run(io, ops).slots[i], At(FoundBy(io, ops), i));
  }
}
