/** The wheel resolution of main/src/hog_client.c: read from the peer, set by the host, written back. */
module MouseFeature {
  import opened Basics
  import opened HogDiscovery

  const RESOLUTION_MAX: nat := 15

  /** A resolution fits a nibble per wheel. */
  datatype Resolution = Resolution(wheel: nat, horWheel: nat)

  /** A feature write to the peer, without response. */
  datatype Write = Write(handle: int, payload: Byte)

  datatype State = State(resolution: Resolution, fromHost: bool, writes: seq<Write>)

  const START: State := State.State(Resolution(0, 0), false, [])

  predicate Fits(r: Resolution) {
    r.wheel <= RESOLUTION_MAX && r.horWheel <= RESOLUTION_MAX
  }

  function Clamped(r: Resolution): (c: Resolution)
    ensures Fits(c) && (Fits(r) ==> c == r)
  {
    Resolution(Min(r.wheel, RESOLUTION_MAX), Min(r.horWheel, RESOLUTION_MAX))
  }

  function Decode(payload: seq<Byte>): Result<Resolution> {
    if |payload| != 1 then Err(SIZE_MISMATCH)
    else Ok(Resolution(payload[0] as int % 16, payload[0] as int / 16))
  }

  function Encode(r: Resolution): Byte {
    (16 * Clamped(r).horWheel + Clamped(r).wheel) as Byte
  }

  /** Every resolution that fits survives the one-byte payload, and every payload the resolution. */
  lemma FeatureRoundTrip(r: Resolution, b: Byte)
    ensures Fits(r) ==> Decode([Encode(r)]) == Ok(r)
    ensures Decode([b]).Ok? && Fits(Decode([b]).value) && Encode(Decode([b]).value) == b
  {
    var h, w := b as int / 16, b as int % 16;
    assert b as int == 16 * h + w;
    if Fits(r) {
      assert (16 * r.horWheel + r.wheel) / 16 == r.horWheel;
    }
  }

  /** set_mouse_resolution */
  function Set(s: State, r: Resolution): State {
    s.(resolution := Clamped(r))
  }

  /** write_mouse_feature_to_peer; without a connection the table has no slots. */
  function WriteBack(s: State, slots: seq<Slot>): State {
    var i := FindRole(slots, MouseFeature);
    if i == |slots| || !slots[i].props.writeNoResponse then s
    else s.(writes := s.writes + [Write(slots[i].valueHandle, Encode(s.resolution))])
  }

  /** What a report reference does: a feature report starts at full resolution unless the host has set one. */
  function OnRole(s: State, role: Role): State {
    if role.MouseFeature? && !s.fromHost then Set(s, Resolution(RESOLUTION_MAX, RESOLUTION_MAX)) else s
  }

  /** What the feature read does: the host's setting wins over the peer's and is written to it. */
  function OnRead(s: State, slots: seq<Slot>, err: int, data: Option<seq<Byte>>): State {
    if data.None? || err != 0 || Decode(data.value).Err? then s
    else if s.fromHost then WriteBack(s, slots)
    else Set(s, Decode(data.value).value)
  }

  function FromHost(s: State, slots: seq<Slot>, r: Resolution): State {
    WriteBack(Set(s, r).(fromHost := true), slots)
  }

  /** What happens to the resolution between two resets, and a reset. */
  datatype Op =
    | RoleFound(role: Role)
    | FeatureRead(slots: seq<Slot>, err: int, data: Option<seq<Byte>>)
    | HostSets(slots: seq<Slot>, resolution: Resolution)
    | ResetOp

  /** hog_client_reset */
  function Clear(s: State): State {
    START.(writes := s.writes)
  }

  function Step(s: State, op: Op): State {
    match op
    case RoleFound(role) => OnRole(s, role)
    case FeatureRead(slots, err, data) => OnRead(s, slots, err, data)
    case HostSets(slots, r) => FromHost(s, slots, r)
    case ResetOp => Clear(s)
  }

  function Run(s: State, ops: seq<Op>): State {
    if ops == [] then s else Step(Run(s, ops[..|ops| - 1]), ops[|ops| - 1])
  }

  /** Only the peer speaks. */
  ghost predicate PeerOnly(ops: seq<Op>) {
    forall i :: 0 <= i < |ops| ==> ops[i].RoleFound? || ops[i].FeatureRead?
  }

  /** Every write from number `from` on carries the resolution. */
  ghost predicate Carry(writes: seq<Write>, from: nat, r: Resolution) {
    forall i :: from <= i < |writes| ==> Decode([writes[i].payload]) == Ok(r)
  }

  lemma WriteBackCarries(s: State, slots: seq<Slot>, from: nat)
    requires Fits(s.resolution) && Carry(s.writes, from, s.resolution)
    ensures var t := WriteBack(s, slots); s.writes <= t.writes && Carry(t.writes, from, s.resolution)
  {
    FeatureRoundTrip(s.resolution, 0);
  }

  /**
   From the host's setting on, up to the next reset or setting, nothing the peer sends changes the
   resolution, and every write to the peer carries it.
   */
  lemma {:induction false} HostSettingStands(s: State, slots: seq<Slot>, r: Resolution, ops: seq<Op>)
    requires PeerOnly(ops)
    ensures var t := Run(FromHost(s, slots, r), ops);
            && t.resolution == Clamped(r) && t.fromHost
            && s.writes <= t.writes && Carry(t.writes, |s.writes|, Clamped(r))
  {
    if ops == [] {
      WriteBackCarries(Set(s, r).(fromHost := true), slots, |s.writes|);
    } else {
      var t := Run(FromHost(s, slots, r), ops[..|ops| - 1]);
      HostSettingStands(s, slots, r, ops[..|ops| - 1]);
      match ops[|ops| - 1]
      case RoleFound(role) =>
      case FeatureRead(now, err, data) => WriteBackCarries(t, now, |s.writes|);
    }
  }

  /** The first slot that holds a mouse feature, if it takes writes without response. */
  ghost predicate Writable(slots: seq<Slot>, i: nat) {
    && i < |slots| && slots[i].role == MouseFeature && slots[i].props.writeNoResponse
    && forall k :: 0 <= k < i ==> slots[k].role != MouseFeature
  }

  /** One byte to that slot: the horizontal wheel in the high nibble and the wheel in the low one. */
  ghost predicate WritesOnce(s: State, t: State, slots: seq<Slot>) {
    && (forall i: nat :: Writable(slots, i) ==>
          |t.writes| == |s.writes| + 1 && s.writes <= t.writes && t.writes[|s.writes|].handle == slots[i].valueHandle
          && t.writes[|s.writes|].payload as int == 16 * t.resolution.horWheel + t.resolution.wheel)
    && ((forall i: nat :: !Writable(slots, i)) ==> t.writes == s.writes)
  }

  lemma WriteBackOnce(s: State, slots: seq<Slot>)
    requires Fits(s.resolution)
    ensures WritesOnce(s, WriteBack(s, slots), slots)
  {
    var i := FindRole(slots, MouseFeature);
    forall k: nat | Writable(slots, k) ensures k == i {
      OnlyFirst(slots, i, k);
    }
    if i < |slots| && slots[i].props.writeNoResponse {
      assert Writable(slots, i);
    }
  }

  lemma OnlyFirst(slots: seq<Slot>, i: nat, k: nat)
    requires i <= |slots| && (i < |slots| ==> slots[i].role == MouseFeature)
    requires (forall j :: 0 <= j < i ==> slots[j].role != MouseFeature) && Writable(slots, k)
    ensures k == i
  {
  }

  /** Until the host has set one, the resolution is the peer's: what it last sent, nibble by nibble, if valid. */
  lemma PeerSettingTaken(s: State, slots: seq<Slot>, err: int, data: Option<seq<Byte>>)
    requires !s.fromHost
    ensures var t := Step(s, FeatureRead(slots, err, data));
            && t.writes == s.writes && !t.fromHost
            && t.resolution ==
                 if err == 0 && data.Some? && |data.value| == 1
                 then Resolution(data.value[0] as int % 16, data.value[0] as int / 16)
                 else s.resolution
  {
  }

  /** Once the host has set one, a valid answer of the peer only has it written back. */
  lemma HostSettingWrittenBack(s: State, slots: seq<Slot>, err: int, data: Option<seq<Byte>>)
    requires s.fromHost && Fits(s.resolution)
    ensures var t := Step(s, FeatureRead(slots, err, data));
            && t.resolution == s.resolution && t.fromHost
            && (if err == 0 && data.Some? && |data.value| == 1 then WritesOnce(s, t, slots) else t.writes == s.writes)
  {
    WriteBackOnce(s, slots);
  }

  /** The host's setting, cut to 15 per wheel, is written to the peer at once. */
  lemma HostSettingTaken(s: State, slots: seq<Slot>, r: Resolution)
    ensures var t := Step(s, HostSets(slots, r));
            && t.resolution.wheel == (if r.wheel < 15 then r.wheel else 15)
            && t.resolution.horWheel == (if r.horWheel < 15 then r.horWheel else 15)
            && t.fromHost && WritesOnce(s, t, slots)
  {
    WriteBackOnce(Set(s, r).(fromHost := true), slots);
  }

  /** A reset forgets the host's setting: the next feature report starts at full resolution again. */
  lemma ResetForgetsTheHost(s: State)
    ensures var t := Step(s, ResetOp);
            && !t.fromHost && t.resolution == Resolution(0, 0) && t.writes == s.writes
            && Step(t, RoleFound(MouseFeature)).resolution == Resolution(15, 15)
  {
    assert Fits(Resolution(RESOLUTION_MAX, RESOLUTION_MAX));
  }

  class MouseScale {
    var resolution: Resolution
    var fromHost: bool
    ghost var writes: seq<Write>

    ghost function View(): State
      reads this
    {
      State.State(resolution, fromHost, writes)
    }

    constructor ()
      ensures View() == START
    {
      resolution, fromHost, writes := Resolution(0, 0), false, [];
    }

    method Forget()
      modifies this
      ensures View() == Clear(old(View()))
    {
      resolution, fromHost := Resolution(0, 0), false;
    }

    method SetResolution(r: Resolution)
      modifies this
      ensures View() == Set(old(View()), r)
    {
      resolution := Clamped(r);
    }

    method Send(handle: int)
      modifies this
      ensures View() == old(View()).(writes := old(writes) + [Write(handle, Encode(old(resolution)))])
    {
      writes := writes + [Write(handle, Encode(resolution))];
    }

    method HoldForHost()
      modifies this
      ensures View() == old(View()).(fromHost := true)
    {
      fromHost := true;
    }
  }
}
