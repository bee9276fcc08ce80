/** When a discovery session of HogDiscovery may report that the keyboard is ready. */
module HogReadiness {
  import opened Basics
  import opened HogDiscovery
  import opened HogDiscoveryProofs

  /** No input role has been found yet. */
  predicate Silent(p: Profile) {
    !p.keyboard && !p.consumer && !p.mouse
  }

  ghost predicate NobodySubscribed(slots: seq<Slot>) {
    forall i :: 0 <= i < |slots| ==> !slots[i].subscribed
  }

  ghost predicate RoleSubscribed(slots: seq<Slot>, role: Role) {
    exists i :: 0 <= i < |slots| && slots[i].role == role && slots[i].subscribed
  }

  /** Each input capability that is announced is backed by a subscribed slot. */
  ghost predicate Backed(s: State) {
    && (s.profile.keyboard ==> RoleSubscribed(s.slots, KeyboardInput))
    && (s.profile.consumer ==> RoleSubscribed(s.slots, ConsumerInput))
    && (s.profile.mouse ==> RoleSubscribed(s.slots, MouseInput))
  }

  ghost predicate WaitingOk(s: State) {
    && s.flags.pending == |s.env.waiting| + s.env.already
    && forall i :: i in s.env.waiting ==> i < |s.slots| && Wanted(s.slots[i]) && !s.slots[i].subscribed
  }

  /** A keyboard capability is there or may still come. */
  ghost predicate KeyboardPossible(s: State) {
    s.profile.keyboard || exists i :: i in s.env.waiting && i < |s.slots| && s.slots[i].role.KeyboardInput?
  }

  ghost predicate OneKeyboard(slots: seq<Slot>) {
    forall i, j :: 0 <= i < |slots| && 0 <= j < |slots| && slots[i].role.KeyboardInput? && slots[j].role.KeyboardInput?
      ==> i == j
  }

  predicate ReadyPosted(s: State) {
    s.env.posts != [] && s.env.posts[|s.env.posts| - 1].HidReady?
  }

  /** Only failures are posted, except for a HID_READY that ends the session. */
  ghost predicate PostsOk(s: State) {
    && (forall k :: 0 <= k < |s.env.posts| ==>
          s.env.posts[k].HidFailure? || (s.env.posts[k].HidReady? && k == |s.env.posts| - 1))
    && (s.flags.finalizePending ==> s.flags.pending == 0 && s.env.posts != [])
    && (ReadyPosted(s) ==> s.flags.finalizePending)
    && (s.inputOpen <==> ReadyPosted(s))
    && (s.env.posts != [] ==> !s.flags.active)
  }

  /** Before the subscriptions are started. */
  ghost predicate Fresh(s: State) {
    && s.flags.pending == 0 && s.env.waiting == {} && s.env.already == 0
    && !s.flags.finalizePending && !s.inputOpen
    && Silent(s.profile) && NobodySubscribed(s.slots)
    && PostsOk(s)
    && (!s.env.request.NoRequest? ==> s.env.posts == [])
  }

  /** Once they have been started. */
  ghost predicate Subscribing(s: State) {
    && s.env.request.NoRequest?
    && WaitingOk(s) && Backed(s) && PostsOk(s)
    && (s.flags.pending == 0 ==> s.env.posts != [])
    && (OneKeyboard(s.slots) && s.env.posts != [] ==>
          if ReadyPosted(s) then |s.env.posts| == 1 else s.flags.finalizePending || !KeyboardPossible(s))
  }

  ghost predicate Session(s: State) {
    && |s.slots| <= MAX_REPORTS
    && s.env.phases <= 1
    && (s.env.phases == 0 ==> Fresh(s))
    && (s.env.phases == 1 ==> Subscribing(s))
  }

  // ---------- Starting the subscriptions ----------

  ghost predicate LoopInv(s: State, i: nat, saw: bool) {
    && s.env.phases == 1 && s.env.request.NoRequest? && s.env.posts == []
    && !s.flags.finalizePending && !s.inputOpen
    && Silent(s.profile) && NobodySubscribed(s.slots)
    && s.flags.pending == |s.env.waiting| + s.env.already
    && (saw ==> s.flags.pending > 0)
    && forall k :: k in s.env.waiting ==>
         k < i && k < |s.slots| && Wanted(s.slots[k]) && (s.slots[k].role.KeyboardInput? ==> saw)
  }

  /** Giving up inside the loop leaves a session that cannot become ready, if there is one keyboard. */
  lemma FailInLoop(s: State, i: nat, saw: bool, reason: Reason)
    requires LoopInv(s, i, saw) && |s.slots| <= MAX_REPORTS
    requires !saw || (i < |s.slots| && s.slots[i].role.KeyboardInput?)
    ensures var t := Fail(s, reason);
            Session(t) && !t.flags.finalizePending && t.env.phases == 1 && |t.env.posts| == 1
  {
  }

  /** The session is not over, though a failure may have been reported; then the status is that of the post. */
  predicate Undecided(r: (State, Status), io: Io) {
    && !r.0.flags.finalizePending
    && (r.0.env.phases == 0 ==> r.0.env.posts == [])
    && (r.0.env.phases == 1 ==> (r.0.env.posts == [] && r.1 == OK) || (|r.0.env.posts| == 1 && r.1 == io.post))
  }

  lemma SubscribeKeepsLoop(s: State, i: nat, saw: bool, err: int)
    requires LoopInv(s, i, saw) && i < |s.slots| <= MAX_REPORTS && Wanted(s.slots[i])
    ensures err == 0 || err == EALREADY ==> LoopInv(Subscribe(s, i, err), i + 1, saw || s.slots[i].role.KeyboardInput?)
    ensures err != 0 && err != EALREADY ==> LoopInv(Subscribe(s, i, err), i, saw)
  {
    assert i !in s.env.waiting;
  }

  lemma {:induction false} LoopReaches(s: State, i: nat, saw: bool, io: Io)
    requires LoopInv(s, i, saw) && |s.slots| <= MAX_REPORTS
    ensures Session(SubscribeFrom(s, i, saw, io).0) && Undecided(SubscribeFrom(s, i, saw, io), io)
    decreases |s.slots| - i
  {
    if i >= |s.slots| {
      if !saw {
        FailInLoop(s, i, saw, ReportMissing);
      }
    } else {
      var slot := s.slots[i];
      if !Wanted(slot) || (!CanSubscribe(slot) && !slot.role.KeyboardInput?) {
        LoopReaches(s, i + 1, saw, io);
      } else if !CanSubscribe(slot) {
        FailInLoop(s, i, saw, SubscribeFailed);
      } else {
        var t := Subscribe(s, i, io.subscribe[i]);
        SubscribeKeepsLoop(s, i, saw, io.subscribe[i]);
        if io.subscribe[i] == 0 || io.subscribe[i] == EALREADY {
          LoopReaches(t, i + 1, saw || slot.role.KeyboardInput?, io);
        } else if slot.role.KeyboardInput? {
          FailInLoop(t, i, saw, SubscribeFailed);
        } else {
          LoopReaches(t, i + 1, saw, io);
        }
      }
    }
  }

  /** A fresh session with no request open and nothing posted. */
  ghost predicate Quiet(s: State) {
    |s.slots| <= MAX_REPORTS && s.env.phases == 0 && Fresh(s) && s.env.request.NoRequest? && s.env.posts == []
  }

  lemma SubscriptionsReach(s: State, io: Io)
    requires Quiet(s)
    ensures Session(StartSubscriptions(s, io).0) && Undecided(StartSubscriptions(s, io), io)
  {
    LoopReaches(OpenPhase(s), 0, false, io);
  }

  lemma {:induction false} WalkReaches(s: State, io: Io)
    requires Quiet(s) && s.flags.current < |s.slots|
    ensures Session(AdvanceAfterReference(s, io).0) && Undecided(AdvanceAfterReference(s, io), io)
    ensures Session(StartDescriptors(s, io).0) && Undecided(StartDescriptors(s, io), io)
    decreases |s.slots| - s.flags.current
  {
    var t := s.(flags := s.flags.(current := s.flags.current + 1));
    if t.flags.current < |t.slots| {
      WalkReaches(t, io);
    } else {
      var u := if t.profile.feature then StartFeatureRead(t, io).0 else t;
      if u.env.request.NoRequest? {
        SubscriptionsReach(u, io);
      }
    }
  }

  // ---------- Callbacks before the subscriptions ----------

  lemma BeginDescriptorsReaches(s: State, io: Io)
    requires Quiet(s) && s.slots != []
    ensures Session(BeginDescriptors(s, io)) && !BeginDescriptors(s, io).flags.finalizePending
  {
    var t := s.(flags := s.flags.(current := 0));
    WalkReaches(t, io);
    FailedWalkClosed(t, io);
    FailKeepsSession(StartDescriptors(t, io).0, ReportMissing);
  }

  /** A further failure report changes nothing else. */
  lemma FailKeepsSession(s: State, reason: Reason)
    requires Session(s) && !s.flags.finalizePending
    ensures s.env.request.NoRequest? && (s.env.phases == 1 ==> s.env.posts != []) ==> Session(Fail(s, reason))
  {
  }

  lemma ServiceReaches(s: State, first: int, last: int, io: Io)
    requires Session(s) && s.env.request.ServiceRequest?
    ensures Session(OnServiceFound(s, first, last, io)) && !OnServiceFound(s, first, last, io).flags.finalizePending
  {
  }

  lemma CharacteristicReaches(s: State, handle: int, value: int, props: Props, isReport: bool, io: Io)
    requires Session(s) && s.env.request.CharacteristicRequest?
    ensures var t := OnCharacteristic(s, handle, value, props, isReport, io); Session(t) && !t.flags.finalizePending
  {
    if |s.slots| < MAX_REPORTS {
      var closed := CloseLastSlot(s.slots, handle);
      assert NobodySubscribed(closed);
      var slots := if isReport then closed + [NewSlot(props, value, s.service.last)] else closed;
      assert NobodySubscribed(slots);
      var t := s.(slots := slots, lastHandle := value);
      if value >= s.service.last && slots != [] {
        BeginDescriptorsReaches(Answered(t), io);
      }
    }
  }

  lemma DescriptorsEndReaches(s: State, io: Io)
    requires Session(s) && s.env.request.DescriptorRequest?
    ensures Session(OnDescriptorsEnd(s, io)) && !OnDescriptorsEnd(s, io).flags.finalizePending
  {
    if s.flags.current < |s.slots| && s.slots[s.flags.current].refHandle == 0 {
      WalkReaches(Answered(s), io);
    }
  }

  lemma ReferenceReaches(s: State, err: int, data: Option<seq<Byte>>, io: Io)
    requires Session(s) && s.env.request.ReferenceRequest?
    ensures Session(OnReference(s, err, data, io)) && !OnReference(s, err, data, io).flags.finalizePending
  {
    var t := Answered(s);
    if t.flags.current < |t.slots| && data.Some? {
      if err != 0 || |data.value| < 2 {
        WalkReaches(t, io);
      } else {
        var u := StoreReference(t, data.value[0] as int, data.value[1] as int);
        assert NobodySubscribed(u.slots);
        WalkReaches(u, io);
      }
    }
  }

  lemma DescriptorReaches(s: State, handle: int, kind: DescriptorKind)
    requires Session(s) && s.env.request.DescriptorRequest?
    ensures Session(OnDescriptor(s, handle, kind)) && !OnDescriptor(s, handle, kind).flags.finalizePending
  {
    assert NobodySubscribed(OnDescriptor(s, handle, kind).slots);
  }

  // ---------- Answers to the subscriptions ----------

  ghost predicate SameRoles(a: seq<Slot>, b: seq<Slot>) {
    |a| == |b| && forall k :: 0 <= k < |a| ==> a[k].role == b[k].role && a[k].reportType == b[k].reportType
  }

  lemma RecordedWaiting(s: State, i: nat, err: int)
    requires WaitingOk(s) && i in s.env.waiting
    ensures WaitingOk(Recorded(s, i, err)) && SameRoles(s.slots, Recorded(s, i, err).slots)
    ensures s.flags.pending == Recorded(s, i, err).flags.pending + 1
  {
    assert |s.env.waiting - {i}| == |s.env.waiting| - 1;
  }

  lemma SubscribedBacks(slots: seq<Slot>, i: nat, role: Role)
    requires i < |slots|
    ensures var t := slots[i := slots[i].(subscribed := true)];
            RoleSubscribed(t, role) <==> (RoleSubscribed(slots, role) || slots[i].role == role)
  {
    var t := slots[i := slots[i].(subscribed := true)];
    if RoleSubscribed(slots, role) {
      var k :| 0 <= k < |slots| && slots[k].role == role && slots[k].subscribed;
      assert t[k].role == role && t[k].subscribed;
    }
    if slots[i].role == role {
      assert t[i].role == role && t[i].subscribed;
    }
    if RoleSubscribed(t, role) && slots[i].role != role {
      var k :| 0 <= k < |t| && t[k].role == role && t[k].subscribed;
      assert slots[k] == t[k];
    }
  }

  lemma RecordedBacked(s: State, i: nat, err: int)
    requires Backed(s) && i < |s.slots|
    ensures Backed(Recorded(s, i, err))
  {
    SubscribedBacks(s.slots, i, KeyboardInput);
    SubscribedBacks(s.slots, i, ConsumerInput);
    SubscribedBacks(s.slots, i, MouseInput);
  }

  lemma RecordedPossible(s: State, i: nat, err: int)
    requires WaitingOk(s) && i in s.env.waiting
    requires SameRoles(s.slots, Recorded(s, i, err).slots)
    ensures KeyboardPossible(Recorded(s, i, err)) ==> KeyboardPossible(s)
  {
  }

  lemma RecordedKeeps(s: State, i: nat, err: int)
    requires Session(s) && s.env.phases == 1 && i in s.env.waiting
    ensures WaitingOk(Recorded(s, i, err)) && Backed(Recorded(s, i, err))
    ensures !s.flags.finalizePending && s.flags.pending == Recorded(s, i, err).flags.pending + 1
    ensures KeyboardPossible(Recorded(s, i, err)) ==> KeyboardPossible(s)
    ensures OneKeyboard(Recorded(s, i, err).slots) <==> OneKeyboard(s.slots)
  {
    RecordedWaiting(s, i, err);
    RecordedBacked(s, i, err);
    RecordedPossible(s, i, err);
  }

  /** The session is going on, and if it has failed it cannot become ready with a single keyboard slot. */
  ghost predicate Pending(s: State) {
    && |s.slots| <= MAX_REPORTS && s.env.phases == 1 && s.env.request.NoRequest?
    && WaitingOk(s) && Backed(s) && !s.flags.finalizePending && !s.inputOpen
    && (forall k :: 0 <= k < |s.env.posts| ==> s.env.posts[k].HidFailure?)
    && (s.env.posts != [] ==> !s.flags.active)
    && (OneKeyboard(s.slots) && s.env.posts != [] ==> !KeyboardPossible(s))
  }

  lemma RecordedPending(s: State, i: nat, err: int)
    requires Session(s) && s.env.phases == 1 && i in s.env.waiting
    ensures Pending(Recorded(s, i, err))
  {
    RecordedKeeps(s, i, err);
    if s.env.posts != [] {
      assert s.env.posts[|s.env.posts| - 1].HidFailure?;
    }
  }

  lemma FinalizeReaches(s: State)
    requires Pending(s)
    ensures Session(Finalize(s))
  {
  }

  lemma FailReaches(s: State, reason: Reason)
    requires Pending(s) && (OneKeyboard(s.slots) ==> !KeyboardPossible(s))
    ensures Session(Fail(s, reason))
  {
  }

  lemma SubscribedReaches(s: State, i: nat, err: int)
    requires Session(s) && s.env.phases == 1 && i in s.env.waiting
    ensures Session(OnSubscribed(s, i, err))
  {
    RecordedPending(s, i, err);
    var t := Recorded(s, i, err);
    if err != 0 && s.slots[i].role.KeyboardInput? {
      KeyboardRefused(s, i, err);
      FailReaches(t, SubscribeFailed);
    } else {
      FinalizeReaches(t);
    }
  }

  /** With one keyboard slot, a refused keyboard subscription rules out readiness for good. */
  lemma KeyboardRefused(s: State, i: nat, err: int)
    requires Session(s) && s.env.phases == 1 && i in s.env.waiting
    requires err != 0 && s.slots[i].role.KeyboardInput?
    ensures OneKeyboard(s.slots) ==> !KeyboardPossible(Recorded(s, i, err))
  {
  }

  lemma UnsubscribedReaches(s: State, i: nat)
    requires Session(s)
    ensures Session(OnUnsubscribed(s, i))
  {
    if i < |s.slots| && s.env.phases == 1 {
      var t := OnUnsubscribed(s, i);
      assert forall k :: 0 <= k < |s.slots| ==> t.slots[k].role == s.slots[k].role;
      assert forall k :: 0 <= k < |s.slots| && s.slots[k].role != s.slots[i].role ==> t.slots[k] == s.slots[k];
      assert Backed(t);
      assert OneKeyboard(t.slots) <==> OneKeyboard(s.slots);
      assert KeyboardPossible(t) ==> KeyboardPossible(s);
    }
  }

  lemma StepKeepsSession(s: State, op: Op)
    requires Session(s) && Legal(s, op)
    ensures Session(Step(s, op))
    ensures !op.Subscribed? && !op.Unsubscribed? ==> !Step(s, op).flags.finalizePending
  {
    match op
    case ServiceFound(first, last, io) => ServiceReaches(s, first, last, io);
    case NoService => FailKeepsSession(Answered(s), ServiceMissing);
    case Characteristic(handle, value, props, isReport, io) =>
      CharacteristicReaches(s, handle, value, props, isReport, io);
    case CharacteristicsEnd(io) =>
      if s.slots != [] {
        BeginDescriptorsReaches(Answered(s), io);
      } else {
        FailKeepsSession(Answered(s), ReportMissing);
      }
    case Descriptor(handle, kind) => DescriptorReaches(s, handle, kind);
    case DescriptorsEnd(io) => DescriptorsEndReaches(s, io);
    case Reference(err, data, io) => ReferenceReaches(s, err, data, io);
    case Feature(_, data, io) =>
      if data.Some? {
        SubscriptionsReach(Answered(s), io);
      }
    case Subscribed(index, err) => SubscribedReaches(s, index, err);
    case Unsubscribed(index) => UnsubscribedReaches(s, index);
  }

  lemma {:induction false} SessionHolds(io: Io, ops: seq<Op>)
    requires LegalRun(io, ops)
    ensures Session(Run(io, ops))
  {
    if ops != [] {
      SessionHolds(io, ops[..|ops| - 1]);
      StepKeepsSession(Run(io, ops[..|ops| - 1]), ops[|ops| - 1]);
    }
  }

  // ---------- What a session reports ----------

  function ReadyCount(posts: seq<Post>): nat {
    if posts == [] then 0 else ReadyCount(posts[..|posts| - 1]) + (if posts[|posts| - 1].HidReady? then 1 else 0)
  }

  lemma {:induction false} FailuresOnly(posts: seq<Post>)
    requires forall k :: 0 <= k < |posts| ==> posts[k].HidFailure?
    ensures ReadyCount(posts) == 0
  {
    if posts != [] {
      FailuresOnly(posts[..|posts| - 1]);
    }
  }

  /**
   HID_READY is posted at most once in a session and nothing is posted after it; the failure branch of
   complete_discovery is never taken; input is open exactly when HID_READY has been posted.
   */
  lemma ReadyAtMostOnce(io: Io, ops: seq<Op>)
    requires LegalRun(io, ops)
    ensures var s := Run(io, ops);
            && ReadyCount(s.env.posts) <= 1
            && (ReadyCount(s.env.posts) == 1 <==> ReadyPosted(s))
            && NotReady !in s.env.posts
            && (s.inputOpen <==> ReadyPosted(s))
  {
    SessionHolds(io, ops);
    SessionReports(Run(io, ops));
  }

  lemma SessionReports(s: State)
    requires Session(s)
    ensures ReadyCount(s.env.posts) == (if ReadyPosted(s) then 1 else 0)
    ensures NotReady !in s.env.posts && (s.inputOpen <==> ReadyPosted(s))
  {
    ReadyOnlyLast(s.env.posts);
  }

  lemma ReadyOnlyLast(posts: seq<Post>)
    requires forall k :: 0 <= k < |posts| ==> posts[k].HidFailure? || (posts[k].HidReady? && k == |posts| - 1)
    ensures ReadyCount(posts) == (if posts != [] && posts[|posts| - 1].HidReady? then 1 else 0)
    ensures NotReady !in posts
  {
    if posts != [] {
      FailuresOnly(posts[..|posts| - 1]);
    }
  }

  lemma RunExtends(io: Io, ops: seq<Op>, op: Op)
    ensures LegalRun(io, ops + [op]) <==> LegalRun(io, ops) && Legal(Run(io, ops), op)
    ensures Run(io, ops + [op]) == Step(Run(io, ops), op)
  {
    assert (ops + [op])[..|ops|] == ops;
  }

  /** Every accepted subscription is answered, and what the last post announces is backed by subscribed slots. */
  ghost predicate Justified(s: State) {
    && s.env.waiting == {} && s.env.already == 0
    && RoleSubscribed(s.slots, KeyboardInput) && Backed(s)
    && s.env.posts != [] && s.env.posts[|s.env.posts| - 1] == HidReady(s.profile) && s.profile.keyboard
  }

  lemma AnswerAnnounces(s: State, op: Op)
    requires Session(s) && Legal(s, op) && !ReadyPosted(s) && ReadyPosted(Step(s, op))
    ensures Justified(Step(s, op))
  {
    StepKeepsSession(s, op);
    assert op.Subscribed? || op.Unsubscribed?;
  }

  /**
   The step that posts HID_READY leaves no accepted subscription unanswered, and every input
   capability it announces, the keyboard among them, belongs to a slot that is subscribed.
   */
  lemma ReadyIsJustified(io: Io, ops: seq<Op>, op: Op)
    requires LegalRun(io, ops + [op])
    requires !ReadyPosted(Run(io, ops)) && ReadyPosted(Run(io, ops + [op]))
    ensures Justified(Run(io, ops + [op]))
  {
    RunExtends(io, ops, op);
    SessionHolds(io, ops);
    AnswerAnnounces(Run(io, ops), op);
  }

  /** Once the subscriptions have started and every accepted one has been answered, a verdict is posted. */
  lemma VerdictAfterLastAnswer(io: Io, ops: seq<Op>)
    requires LegalRun(io, ops)
    requires Run(io, ops).env.phases == 1 && Run(io, ops).env.waiting == {} && Run(io, ops).env.already == 0
    ensures Run(io, ops).env.posts != []
  {
    SessionHolds(io, ops);
  }

  /** With at most one keyboard slot, a session that reports HID_READY reports nothing else. */
  lemma ReadyExcludesFailure(io: Io, ops: seq<Op>)
    requires LegalRun(io, ops) && OneKeyboard(Run(io, ops).slots) && ReadyPosted(Run(io, ops))
    ensures |Run(io, ops).env.posts| == 1
  {
    SessionHolds(io, ops);
  }

  // ---------- When readiness can still come ----------

  /** Something is still to be answered, no subscription was already there, and a keyboard is possible. */
  ghost predicate CanBecomeReady(s: State) {
    s.env.waiting != {} && s.env.already == 0 && KeyboardPossible(s)
  }

  /** Answering slot `i` favourably keeps readiness possible, or reaches it with the last answer. */
  lemma FavourableAnswer(s: State, i: nat)
    requires Session(s) && s.env.phases == 1 && CanBecomeReady(s) && i in s.env.waiting
    ensures var t := OnSubscribed(s, i, 0);
            && Session(t) && t.env.phases == 1 && t.env.waiting == s.env.waiting - {i}
            && (if t.env.waiting == {} then ReadyPosted(t) else CanBecomeReady(t) && !ReadyPosted(t))
  {
    SubscribedReaches(s, i, 0);
    RecordedKeeps(s, i, 0);
    var t := Recorded(s, i, 0);
    if !s.profile.keyboard && !s.slots[i].role.KeyboardInput? {
      var k :| k in s.env.waiting && k < |s.slots| && s.slots[k].role.KeyboardInput?;
      assert k in t.env.waiting && t.slots[k].role.KeyboardInput?;
    }
    assert KeyboardPossible(t);
    if t.env.waiting != {} {
      assert |t.env.waiting| > 0;
    }
  }

  ghost predicate Hopeful(s: State) {
    s.env.phases == 1 && CanBecomeReady(s)
  }

  lemma AnswerOne(io: Io, ops: seq<Op>) returns (op: Op)
    requires LegalRun(io, ops) && Hopeful(Run(io, ops))
    ensures LegalRun(io, ops + [op])
    ensures var s, t := Run(io, ops), Run(io, ops + [op]);
            |t.env.waiting| < |s.env.waiting| && (if t.env.waiting == {} then ReadyPosted(t) else Hopeful(t))
  {
    SessionHolds(io, ops);
    var s := Run(io, ops);
    var i :| i in s.env.waiting;
    FavourableAnswer(s, i);
    op := Subscribed(i, 0);
    RunExtends(io, ops, op);
    assert |s.env.waiting - {i}| == |s.env.waiting| - 1;
  }

  lemma ConcatAssociates(a: seq<Op>, b: seq<Op>, c: seq<Op>)
    ensures a + b + c == a + (b + c)
  {
  }

  lemma {:induction false} AnswerAll(io: Io, ops: seq<Op>) returns (more: seq<Op>)
    requires LegalRun(io, ops) && Hopeful(Run(io, ops))
    ensures LegalRun(io, ops + more) && ReadyPosted(Run(io, ops + more))
    decreases |Run(io, ops).env.waiting|
  {
    var op := AnswerOne(io, ops);
    if Run(io, ops + [op]).env.waiting == {} {
      more := [op];
    } else {
      var rest := AnswerAll(io, ops + [op]);
      more := [op] + rest;
      ConcatAssociates(ops, [op], rest);
    }
  }

  /** A step cannot bring readiness back. */
  lemma HopelessStep(s: State, op: Op)
    requires Session(s) && s.env.phases == 1 && !ReadyPosted(s) && !CanBecomeReady(s) && Legal(s, op)
    ensures !ReadyPosted(Step(s, op)) && !CanBecomeReady(Step(s, op)) && Step(s, op).env.phases == 1
  {
    match op
    case Subscribed(i, err) => HopelessAnswer(s, i, err);
    case Unsubscribed(i) =>
  }

  lemma HopelessAnswer(s: State, i: nat, err: int)
    requires Session(s) && s.env.phases == 1 && !ReadyPosted(s) && !CanBecomeReady(s) && i in s.env.waiting
    ensures var t := OnSubscribed(s, i, err); !ReadyPosted(t) && !CanBecomeReady(t) && t.env.phases == 1
  {
    RecordedPending(s, i, err);
    RecordedKeeps(s, i, err);
    var t := Recorded(s, i, err);
    assert t.profile.keyboard ==> KeyboardPossible(t);
  }

  lemma LastSplits(ops: seq<Op>, more: seq<Op>)
    requires more != []
    ensures ops + more == ops + more[..|more| - 1] + [more[|more| - 1]]
  {
  }

  lemma {:induction false} Hopeless(io: Io, ops: seq<Op>, more: seq<Op>)
    requires LegalRun(io, ops) && LegalRun(io, ops + more)
    requires Run(io, ops).env.phases == 1 && !ReadyPosted(Run(io, ops)) && !CanBecomeReady(Run(io, ops))
    ensures var t := Run(io, ops + more); !ReadyPosted(t) && !CanBecomeReady(t) && t.env.phases == 1
    decreases |more|
  {
    if more == [] {
      assert ops + more == ops;
    } else {
      var front, last := more[..|more| - 1], more[|more| - 1];
      LastSplits(ops, more);
      RunExtends(io, ops + front, last);
      Hopeless(io, ops, front);
      SessionHolds(io, ops + front);
      HopelessStep(Run(io, ops + front), last);
    }
  }

  /**
   Once the subscriptions have been started, HID_READY can still be posted - even after a HID_FAILURE -
   exactly if an answer is outstanding, no subscription was refused as already present, and the
   keyboard capability is set or a keyboard slot is among those still to be answered.
   */
  lemma ReadyReachableExactly(io: Io, ops: seq<Op>)
    requires LegalRun(io, ops) && Run(io, ops).env.phases == 1 && !ReadyPosted(Run(io, ops))
    ensures (exists more :: LegalRun(io, ops + more) && ReadyPosted(Run(io, ops + more)))
            <==> CanBecomeReady(Run(io, ops))
  {
    if CanBecomeReady(Run(io, ops)) {
      var more := AnswerAll(io, ops);
    } else {
      forall more | LegalRun(io, ops + more)
        ensures !ReadyPosted(Run(io, ops + more))
      {
        Hopeless(io, ops, more);
      }
    }
  }

  // ---------- A failure that is followed by readiness ----------

  const GOOD: Io := Io(0, 0, [0, 0, 0, 0, 0, 0, 0, 0], OK)
  const SECOND_REFUSED: Io := Io(0, 0, [0, -5, 0, 0, 0, 0, 0, 0], OK)
  const NOTIFY: Props := Props(true, true, false)

  /** A session of the example while the table is being filled. */
  function Example(request: Request, slots: seq<Slot>, seen: int, current: nat, calls: nat): State {
    State.State(Flags(true, false, current, 0), Service(1, 20), seen, slots, NO_PROFILE, false,
                Env(request, {}, 0, calls, 0, 0, {}, []))
  }

  function ExampleSlot(value: int, end: int, ccc: int, ref: int, role: Role): Slot {
    if role == KeyboardInput then Slot(NOTIFY, value, end, ccc, ref, 1, TYPE_INPUT, role, false)
    else if role == ConsumerInput then Slot(NOTIFY, value, end, ccc, ref, 2, TYPE_INPUT, role, false)
    else Slot(NOTIFY, value, end, ccc, ref, 0, 0, Unknown, false)
  }

  /** The two report slots before anything is known about them. */
  const BARE_SLOTS: seq<Slot> := [ExampleSlot(3, 9, 0, 0, Unknown), ExampleSlot(11, 20, 0, 0, Unknown)]

  /** Both reports have been looked into; the reference of the second is about to be read. */
  const ONE_READ: State :=
    Example(ReferenceRequest(1), [ExampleSlot(3, 9, 4, 5, KeyboardInput), ExampleSlot(11, 20, 12, 13, Unknown)],
            11, 1, 6)

  lemma RunContinues(io: Io, ops: seq<Op>, s: State, op: Op, t: State)
    requires LegalRun(io, ops) && Run(io, ops) == s && Legal(s, op) && |s.slots| <= MAX_REPORTS && Step(s, op) == t
    ensures LegalRun(io, ops + [op]) && Run(io, ops + [op]) == t
  {
    RunExtends(io, ops, op);
  }

  lemma ExampleTable() returns (ops: seq<Op>)
    ensures LegalRun(GOOD, ops)
    ensures Run(GOOD, ops) == Example(DescriptorRequest(0), BARE_SLOTS, 11, 0, 3)
  {
    var s0 := Begin(GOOD);
    var s1 := Example(CharacteristicRequest, [], 1, 0, 2);
    var s2 := Example(CharacteristicRequest, [ExampleSlot(3, 20, 0, 0, Unknown)], 3, 0, 2);
    var s3 := Example(CharacteristicRequest, BARE_SLOTS, 11, 0, 2);
    RunContinues(GOOD, [], s0, ServiceFound(1, 20, GOOD), s1);
    ops := [] + [ServiceFound(1, 20, GOOD)];
    RunContinues(GOOD, ops, s1, Characteristic(2, 3, NOTIFY, true, GOOD), s2);
    ops := ops + [Characteristic(2, 3, NOTIFY, true, GOOD)];
    RunContinues(GOOD, ops, s2, Characteristic(10, 11, NOTIFY, true, GOOD), s3);
    ops := ops + [Characteristic(10, 11, NOTIFY, true, GOOD)];
    RunContinues(GOOD, ops, s3, CharacteristicsEnd(GOOD), Example(DescriptorRequest(0), BARE_SLOTS, 11, 0, 3));
    ops := ops + [CharacteristicsEnd(GOOD)];
  }

  /** Descriptors and reference of the slot that is being looked into, up to the answer of the reference read. */
  lemma ExampleReport(ops: seq<Op>, slots: seq<Slot>, i: nat, calls: nat, ccc: int, ref: int) returns (more: seq<Op>)
    requires i < |slots| <= MAX_REPORTS && ref != 0
    requires slots[i].valueHandle < ccc <= slots[i].endHandle && slots[i].valueHandle < ref <= slots[i].endHandle
    requires LegalRun(GOOD, ops) && Run(GOOD, ops) == Example(DescriptorRequest(i), slots, 11, i, calls)
    ensures LegalRun(GOOD, more)
    ensures var b := slots[i := slots[i].(cccHandle := ccc, refHandle := ref)];
            Run(GOOD, more) == Example(ReferenceRequest(i), b, 11, i, calls + 1)
  {
    var a := slots[i := slots[i].(cccHandle := ccc)];
    var b := slots[i := slots[i].(cccHandle := ccc, refHandle := ref)];
    assert a[i := a[i].(refHandle := ref)] == b;
    var s0 := Example(DescriptorRequest(i), slots, 11, i, calls);
    var s1 := Example(DescriptorRequest(i), a, 11, i, calls);
    var s2 := Example(DescriptorRequest(i), b, 11, i, calls);
    RunContinues(GOOD, ops, s0, Descriptor(ccc, Ccc), s1);
    more := ops + [Descriptor(ccc, Ccc)];
    RunContinues(GOOD, more, s1, Descriptor(ref, ReportReference), s2);
    more := more + [Descriptor(ref, ReportReference)];
    RunContinues(GOOD, more, s2, DescriptorsEnd(GOOD), Example(ReferenceRequest(i), b, 11, i, calls + 1));
    more := more + [DescriptorsEnd(GOOD)];
  }

  /** The reference of the second keyboard report is read and its subscription is refused at once. */
  lemma ExampleRefusal(s: State, t: State, op: Op)
    requires s == ONE_READ
    requires op == Reference(0, Some([1, 1]), SECOND_REFUSED) && t == Step(s, op)
    ensures Legal(s, op)
    ensures t.slots == [ExampleSlot(3, 9, 4, 5, KeyboardInput), ExampleSlot(11, 20, 12, 13, KeyboardInput)]
    ensures t.flags.pending == 1 && t.env.waiting == {0} && t.env.already == 0 && t.env.phases == 1
    ensures t.env.posts == [HidFailure(SubscribeFailed)] && !t.flags.finalizePending
  {
    var slots := [ExampleSlot(3, 9, 4, 5, KeyboardInput), ExampleSlot(11, 20, 12, 13, KeyboardInput)];
    var u := Example(NoRequest, slots, 11, 2, 6);
    var v := u.(env := u.env.(phases := 1));
    var w := Subscribe(v, 0, 0);
    assert SubscribeFrom(w, 1, true, SECOND_REFUSED).0 == Fail(Subscribe(w, 1, -5), SubscribeFailed);
    assert SubscribeFrom(v, 0, false, SECOND_REFUSED) == SubscribeFrom(w, 1, true, SECOND_REFUSED);
    assert StartSubscriptions(u, SECOND_REFUSED) == SubscribeFrom(v, 0, false, SECOND_REFUSED);
    var x := Example(NoRequest, slots, 11, 1, 6);
    assert AdvanceAfterReference(x, SECOND_REFUSED) == StartSubscriptions(u, SECOND_REFUSED);
    assert SetCurrent(Answered(s), s.slots[1].(reportId := 1, reportType := 1, role := KeyboardInput)) == x;
  }

  lemma ExampleReferences() returns (ops: seq<Op>)
    ensures LegalRun(GOOD, ops) && Run(GOOD, ops) == ONE_READ
  {
    ops := ExampleTable();
    ops := ExampleReport(ops, BARE_SLOTS, 0, 3, 4, 5);
    var first := [ExampleSlot(3, 9, 4, 5, KeyboardInput), ExampleSlot(11, 20, 0, 0, Unknown)];
    var read := BARE_SLOTS[0 := BARE_SLOTS[0].(cccHandle := 4, refHandle := 5)];
    RunContinues(GOOD, ops, Example(ReferenceRequest(0), read, 11, 0, 4),
      Reference(0, Some([1, 1]), GOOD), Example(DescriptorRequest(1), first, 11, 1, 5));
    ops := ops + [Reference(0, Some([1, 1]), GOOD)];
    ops := ExampleReport(ops, first, 1, 5, 12, 13);
  }

  /**
   A peer with two keyboard input reports: the first subscription is accepted, the second refused at
   once, so HID_FAILURE is posted; then the first is answered favourably and HID_READY is posted too.
   */
  lemma FailureThenReady() returns (io: Io, ops: seq<Op>)
    ensures LegalRun(io, ops)
    ensures var posts := Run(io, ops).env.posts;
            |posts| == 2 && posts[0] == HidFailure(SubscribeFailed) && posts[1].HidReady?
  {
    io := GOOD;
    ops := ExampleReferences();
    var op := Reference(0, Some([1, 1]), SECOND_REFUSED);
    ExampleRefusal(ONE_READ, Step(ONE_READ, op), op);
    RunExtends(io, ops, op);
    ops := ops + [op];
    RunExtends(io, ops, Subscribed(0, 0));
    ops := ops + [Subscribed(0, 0)];
  }
}
