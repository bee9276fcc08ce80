/**
 The HID service discovery of main/src/hog_client.c: one session from start_discovery to the next
 reset, driven by the callbacks of the GATT client.
 */
module HogDiscovery {
  import opened Basics
  import Reconnect

  const MAX_REPORTS: nat := 8
  const EALREADY: int := -120

  const TYPE_INPUT: int := 1
  const TYPE_OUTPUT: int := 2
  const TYPE_FEATURE: int := 3

  const KEYBOARD_REPORT_ID: int := 1
  const CONSUMER_REPORT_ID: int := 2
  const MOUSE_REPORT_ID: int := 3

  datatype Props = Props(read: bool, notify: bool, writeNoResponse: bool)

  datatype Slot = Slot(
    props: Props, valueHandle: int, endHandle: int, cccHandle: int, refHandle: int,
    reportId: int, reportType: int, role: Role, subscribed: bool)

  /** The capabilities found so far. */
  datatype Profile = Profile(keyboard: bool, consumer: bool, mouse: bool, feature: bool, led: bool)

  datatype Reason = ServiceMissing | ReportMissing | SubscribeFailed

  /** What is posted to the event queue; NotReady is the failure branch of complete_discovery. */
  datatype Post = HidReady(profile: Profile) | HidFailure(reason: Reason) | NotReady

  /** The discover or read request the stack still has to answer. */
  datatype Request =
    | NoRequest | ServiceRequest | CharacteristicRequest | DescriptorRequest(index: nat)
    | ReferenceRequest(index: nat) | FeatureRequest

  /** The surroundings of the client: open requests, the slots it has subscribed to, and what it has posted. */
  datatype Env = Env(
    request: Request, waiting: set<nat>, already: nat, calls: nat, phases: nat, disconnects: nat,
    asked: set<nat>, posts: seq<Post>)

  datatype Service = Service(first: int, last: int)

  /** The fields of g_ctx that count or flag something. */
  datatype Flags = Flags(active: bool, finalizePending: bool, current: nat, pending: nat)

  datatype State = State(
    flags: Flags, service: Service, lastHandle: int, slots: seq<Slot>, profile: Profile, inputOpen: bool, env: Env)

  type SubscribeErrs = errs: seq<int> | |errs| == MAX_REPORTS witness [0, 0, 0, 0, 0, 0, 0, 0]

  /** Return codes of the calls a callback may make; `post` is the event queue's answer. */
  datatype Io = Io(discover: int, read: int, subscribe: SubscribeErrs, post: Status)

  const NO_PROFILE: Profile := Profile(false, false, false, false, false)

  function RoleFromReference(id: int, kind: int): Role {
    if kind == TYPE_INPUT then
      if id == KEYBOARD_REPORT_ID then KeyboardInput
      else if id == CONSUMER_REPORT_ID then ConsumerInput
      else if id == MOUSE_REPORT_ID then MouseInput
      else Unknown
    else if kind == TYPE_OUTPUT && id == KEYBOARD_REPORT_ID then LedOutput
    else if kind == TYPE_FEATURE && id == MOUSE_REPORT_ID then MouseFeature
    else Unknown
  }

  /** set_profile_capability */
  function SetCapability(p: Profile, role: Role, enabled: bool): Profile {
    match role
    case KeyboardInput => p.(keyboard := enabled)
    case ConsumerInput => p.(consumer := enabled)
    case MouseInput => p.(mouse := enabled)
    case MouseFeature => p.(feature := enabled)
    case LedOutput => p.(led := enabled)
    case Unknown => p
  }

  /** Nothing in the report table changed. */
  predicate SameTable(s: State, t: State) {
    s.slots == t.slots && s.service == t.service && s.lastHandle == t.lastHandle
  }

  // ---------- Ending a session ----------

  /** What the scheduler is told along with each post from number `from` on. */
  function Noted(r: Reconnect.State, posts: seq<Post>, from: nat): Reconnect.State {
    if |posts| <= from then r
    else
      var before := Noted(r, posts[..|posts| - 1], from);
      if posts[|posts| - 1].HidFailure? then Reconnect.Failure(before) else Reconnect.Connected(before)
  }

  lemma NotedNext(r: Reconnect.State, posts: seq<Post>, from: nat, post: Post)
    requires from <= |posts|
    ensures var before := Noted(r, posts, from);
            Noted(r, posts + [post], from) ==
              if post.HidFailure? then Reconnect.Failure(before) else Reconnect.Connected(before)
  {
    assert (posts + [post])[..|posts|] == posts;
  }

  function PostEvent(s: State, post: Post): State {
    s.(env := s.env.(posts := s.env.posts + [post]))
  }

  /** fail_discovery, which also asks for a disconnect and notes a failure with the scheduler. */
  function Fail(s: State, reason: Reason): State {
    var t := s.(flags := s.flags.(active := false), env := s.env.(disconnects := s.env.disconnects + 1));
    PostEvent(t, HidFailure(reason))
  }

  /** complete_discovery, which first tells the scheduler that the peer is connected. */
  function Complete(s: State): State {
    var t := s.(flags := s.flags.(active := false));
    if !s.profile.keyboard then PostEvent(t.(inputOpen := false), NotReady)
    else PostEvent(t.(inputOpen := true), HidReady(s.profile))
  }

  /** finalize_subscription_phase */
  function Finalize(s: State): State {
    if s.flags.finalizePending || s.flags.pending != 0 then s
    else
      var t := s.(flags := s.flags.(finalizePending := true));
      if !t.profile.keyboard then Fail(t, SubscribeFailed) else Complete(t)
  }

  // ---------- Subscriptions ----------

  predicate Wanted(slot: Slot) {
    !slot.role.Unknown? && slot.reportType == TYPE_INPUT
  }

  predicate CanSubscribe(slot: Slot) {
    slot.props.notify && slot.cccHandle != 0
  }

  /** bt_gatt_subscribe for slot `i`, with the bookkeeping around it. */
  function Subscribe(s: State, i: nat, err: int): State {
    var env := s.env.(calls := s.env.calls + 1, asked := s.env.asked + {i});
    if err == 0 then
      s.(flags := s.flags.(pending := s.flags.pending + 1), env := env.(waiting := env.waiting + {i}))
    else if err == EALREADY then
      s.(flags := s.flags.(pending := s.flags.pending + 1), env := env.(already := env.already + 1))
    else s.(env := env)
  }

  /** The loop of start_subscriptions from slot `i` on. */
  function SubscribeFrom(s: State, i: nat, sawKeyboard: bool, io: Io): (r: (State, Status))
    requires |s.slots| <= MAX_REPORTS
    ensures SameTable(s, r.0)
    decreases |s.slots| - i
  {
    if i >= |s.slots| then
      if !sawKeyboard then (Fail(s, ReportMissing), io.post) else (Finalize(s), OK)
    else
      var slot := s.slots[i];
      if !Wanted(slot) then SubscribeFrom(s, i + 1, sawKeyboard, io)
      else if !CanSubscribe(slot) then
        if slot.role.KeyboardInput? then (Fail(s, SubscribeFailed), io.post)
        else SubscribeFrom(s, i + 1, sawKeyboard, io)
      else
        var t := Subscribe(s, i, io.subscribe[i]);
        var failed := io.subscribe[i] != 0 && io.subscribe[i] != EALREADY;
        if failed && slot.role.KeyboardInput? then (Fail(t, SubscribeFailed), io.post)
        else SubscribeFrom(t, i + 1, sawKeyboard || slot.role.KeyboardInput?, io)
  }

  /** No subscription is pending when the phase starts. */
  function OpenPhase(s: State): State {
    s.(flags := s.flags.(pending := 0), env := s.env.(phases := s.env.phases + 1))
  }

  function StartSubscriptions(s: State, io: Io): (r: (State, Status))
    requires |s.slots| <= MAX_REPORTS
    ensures SameTable(s, r.0)
  {
    SubscribeFrom(OpenPhase(s), 0, false, io)
  }

  // ---------- Walking the report table ----------

  /** Index of the first slot with the role, or the number of slots. */
  function FindRole(slots: seq<Slot>, role: Role): (i: nat)
    ensures i <= |slots| && (i < |slots| ==> slots[i].role == role)
    ensures forall k :: 0 <= k < i ==> slots[k].role != role
  {
    if slots == [] || slots[0].role == role then 0 else 1 + FindRole(slots[1..], role)
  }

  function Ask(s: State, request: Request, err: int): State {
    s.(env := s.env.(calls := s.env.calls + 1, request := if err == 0 then request else NoRequest))
  }

  function StartFeatureRead(s: State, io: Io): (State, Status) {
    var i := FindRole(s.slots, MouseFeature);
    if i == |s.slots| then (s, NOT_FOUND)
    else if !s.slots[i].props.read then (s, INVALID_STATE)
    else (Ask(s, FeatureRequest, io.read), io.read)
  }

  function AdvanceAfterReference(s: State, io: Io): (r: (State, Status))
    requires s.flags.current < |s.slots| <= MAX_REPORTS
    ensures SameTable(s, r.0)
    decreases 2 * (|s.slots| - s.flags.current)
  {
    var t := s.(flags := s.flags.(current := s.flags.current + 1));
    if t.flags.current < |t.slots| then StartDescriptors(t, io)
    else if t.profile.feature then
      var (u, status) := StartFeatureRead(t, io);
      if status == OK then (u, OK) else StartSubscriptions(u, io)
    else StartSubscriptions(t, io)
  }

  /** start_descriptor_discovery, whose index argument is always current_report_index. */
  function StartDescriptors(s: State, io: Io): (r: (State, Status))
    requires s.flags.current < |s.slots| <= MAX_REPORTS
    ensures SameTable(s, r.0)
    decreases 2 * (|s.slots| - s.flags.current) + 1
  {
    var slot := s.slots[s.flags.current];
    if slot.valueHandle >= slot.endHandle then AdvanceAfterReference(s, io)
    else (Ask(s, DescriptorRequest(s.flags.current), io.discover), io.discover)
  }

  /** The last characteristic was seen: look into the first report. */
  function BeginDescriptors(s: State, io: Io): State
    requires 0 < |s.slots| <= MAX_REPORTS
  {
    var (t, status) := StartDescriptors(s.(flags := s.flags.(current := 0)), io);
    if status != OK then Fail(t, ReportMissing) else t
  }

  // ---------- Callbacks ----------

  function Answered(s: State): State {
    s.(env := s.env.(request := NoRequest))
  }

  function OnServiceFound(s: State, first: int, last: int, io: Io): State {
    var t := Ask(s.(service := Service(first, last), lastHandle := first), CharacteristicRequest, io.discover);
    if io.discover != 0 then Fail(t, ServiceMissing) else t
  }

  function CloseLastSlot(slots: seq<Slot>, handle: int): seq<Slot> {
    if slots == [] then slots
    else slots[|slots| - 1 := slots[|slots| - 1].(endHandle := handle - 1)]
  }

  function NewSlot(props: Props, value: int, end: int): Slot {
    Slot(props, value, end, 0, 0, 0, 0, Unknown, false)
  }

  function OnCharacteristic(s: State, handle: int, value: int, props: Props, isReport: bool, io: Io): State
    requires |s.slots| <= MAX_REPORTS
  {
    if |s.slots| >= MAX_REPORTS then Answered(s)
    else
      var closed := CloseLastSlot(s.slots, handle);
      var slots := if isReport then closed + [NewSlot(props, value, s.service.last)] else closed;
      var t := s.(slots := slots, lastHandle := value);
      if value >= s.service.last && slots != [] then BeginDescriptors(Answered(t), io) else t
  }

  function OnCharacteristicsEnd(s: State, io: Io): State
    requires |s.slots| <= MAX_REPORTS
  {
    if s.slots == [] then Fail(Answered(s), ReportMissing) else BeginDescriptors(Answered(s), io)
  }

  datatype DescriptorKind = Ccc | ReportReference | OtherDescriptor

  function SetCurrent(s: State, slot: Slot): State
    requires s.flags.current < |s.slots|
  {
    s.(slots := s.slots[s.flags.current := slot])
  }

  function OnDescriptor(s: State, handle: int, kind: DescriptorKind): State {
    if s.flags.current >= |s.slots| then s
    else
      var slot := s.slots[s.flags.current];
      match kind
      case Ccc => SetCurrent(s, slot.(cccHandle := handle))
      case ReportReference => SetCurrent(s, slot.(refHandle := handle))
      case OtherDescriptor => s
  }

  function OnDescriptorsEnd(s: State, io: Io): State
    requires |s.slots| <= MAX_REPORTS
  {
    var t := Answered(s);
    if t.flags.current >= |t.slots| then t
    else if t.slots[t.flags.current].refHandle == 0 then AdvanceAfterReference(t, io).0
    else
      var u := Ask(t, ReferenceRequest(t.flags.current), io.read);
      if io.read != 0 then Fail(u, ReportMissing) else u
  }

  /** Id, type and role of the current report; only outputs and features count as found already. */
  function StoreReference(s: State, id: int, kind: int): State
    requires s.flags.current < |s.slots|
  {
    var role := RoleFromReference(id, kind);
    var t := SetCurrent(s, s.slots[s.flags.current].(reportId := id, reportType := kind, role := role));
    if role.LedOutput? || role.MouseFeature? then t.(profile := SetCapability(t.profile, role, true)) else t
  }

  /** on_report_ref_read; None stands for a NULL buffer. */
  function OnReference(s: State, err: int, data: Option<seq<Byte>>, io: Io): State
    requires |s.slots| <= MAX_REPORTS
  {
    var t := Answered(s);
    if t.flags.current >= |t.slots| || data.None? then t
    else if err != 0 || |data.value| < 2 then AdvanceAfterReference(t, io).0
    else
      AdvanceAfterReference(StoreReference(t, data.value[0] as int, data.value[1] as int), io).0
  }

  /** on_mouse_feature_read: whatever was read, the subscriptions follow, unless the buffer is NULL. */
  function OnFeature(s: State, data: Option<seq<Byte>>, io: Io): State
    requires |s.slots| <= MAX_REPORTS
  {
    if data.None? then Answered(s) else StartSubscriptions(Answered(s), io).0
  }

  /** The answer for slot `i` has been counted, and a favourable one noted in table and profile. */
  function Recorded(s: State, i: nat, err: int): State
    requires i < |s.slots|
  {
    var t := s.(flags := s.flags.(pending := if s.flags.pending > 0 then s.flags.pending - 1 else 0),
                env := s.env.(waiting := s.env.waiting - {i}));
    if err != 0 then t
    else
      var slots := t.slots[i := t.slots[i].(subscribed := true)];
      t.(slots := slots, profile := SetCapability(t.profile, t.slots[i].role, true))
  }

  function OnSubscribed(s: State, i: nat, err: int): State {
    if i >= |s.slots| then s
    else if err != 0 && s.slots[i].role.KeyboardInput? then Fail(Recorded(s, i, err), SubscribeFailed)
    else Finalize(Recorded(s, i, err))
  }

  /** on_report_notify with a NULL buffer: the subscription is gone. */
  function OnUnsubscribed(s: State, i: nat): State {
    if i >= |s.slots| then s
    else s.(slots := s.slots[i := s.slots[i].(subscribed := false)],
            profile := SetCapability(s.profile, s.slots[i].role, false))
  }

  /** After zmk_usb_bridge_hog_client_reset. */
  const BLANK: State :=
    State.State(Flags(false, false, 0, 0), Service(0, 0), 0, [], NO_PROFILE, false,
                Env(NoRequest, {}, 0, 0, 0, 0, {}, []))

  /** start_discovery after the reset. */
  function Begin(io: Io): State {
    Ask(BLANK.(flags := BLANK.flags.(active := true)), ServiceRequest, io.discover)
  }

  datatype Op =
    | ServiceFound(first: int, last: int, io: Io)
    | NoService
    | Characteristic(handle: int, value: int, props: Props, isReport: bool, io: Io)
    | CharacteristicsEnd(io: Io)
    | Descriptor(handle: int, kind: DescriptorKind)
    | DescriptorsEnd(io: Io)
    | Reference(err: int, data: Option<seq<Byte>>, io: Io)
    | Feature(err: int, data: Option<seq<Byte>>, io: Io)
    | Subscribed(index: nat, err: int)
    | Unsubscribed(index: nat)

  /**
   The callback discipline: an answer belongs to the open request, characteristics arrive in
   ascending handle order (Bluetooth Core Specification, Vol 3, Part G, section 3.3), descriptors lie
   in the requested range, and an accepted subscription is answered at most once.
   */
  predicate Legal(s: State, op: Op) {
    match op
    case ServiceFound(first, last, _) => s.env.request.ServiceRequest? && 1 <= first <= last <= 0xffff
    case NoService => s.env.request.ServiceRequest?
    case Characteristic(handle, value, _, _, _) =>
      s.env.request.CharacteristicRequest? && s.lastHandle < handle < value <= s.service.last
    case CharacteristicsEnd(_) => s.env.request.CharacteristicRequest?
    case Descriptor(handle, _) =>
      s.env.request.DescriptorRequest? && s.flags.current < |s.slots|
      && s.slots[s.flags.current].valueHandle < handle <= s.slots[s.flags.current].endHandle
    case DescriptorsEnd(_) => s.env.request.DescriptorRequest?
    case Reference(_, _, _) => s.env.request.ReferenceRequest?
    case Feature(_, _, _) => s.env.request.FeatureRequest?
    case Subscribed(index, _) => index in s.env.waiting
    case Unsubscribed(index) => true
  }

  function Step(s: State, op: Op): (t: State)
    requires |s.slots| <= MAX_REPORTS
    ensures |t.slots| <= MAX_REPORTS
  {
    match op
    case ServiceFound(first, last, io) => OnServiceFound(s, first, last, io)
    case NoService => Fail(Answered(s), ServiceMissing)
    case Characteristic(handle, value, props, isReport, io) => OnCharacteristic(s, handle, value, props, isReport, io)
    case CharacteristicsEnd(io) => OnCharacteristicsEnd(s, io)
    case Descriptor(handle, kind) => OnDescriptor(s, handle, kind)
    case DescriptorsEnd(io) => OnDescriptorsEnd(s, io)
    case Reference(err, data, io) => OnReference(s, err, data, io)
    case Feature(_, data, io) => OnFeature(s, data, io)
    case Subscribed(index, err) => OnSubscribed(s, index, err)
    case Unsubscribed(index) => OnUnsubscribed(s, index)
  }

  function Run(io: Io, ops: seq<Op>): (t: State)
    ensures |t.slots| <= MAX_REPORTS
  {
    if ops == [] then Begin(io) else Step(Run(io, ops[..|ops| - 1]), ops[|ops| - 1])
  }

  ghost predicate LegalRun(io: Io, ops: seq<Op>) {
    ops == [] || (LegalRun(io, ops[..|ops| - 1]) && Legal(Run(io, ops[..|ops| - 1]), ops[|ops| - 1]))
  }
}
