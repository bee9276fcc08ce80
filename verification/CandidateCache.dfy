/** The scan candidate cache of main/src/ble_scan.c and the pairing decision taken on it. */
module CandidateCache {
  import opened Basics
  import PairingFilter

  const CACHE_SIZE: nat := 8
  const STALE_MS: int := 3000
  const INT64_MAX: int := 0x7fff_ffff_ffff_ffff

  const AD_UUID16_SOME: int := 0x02
  const AD_UUID16_ALL: int := 0x03
  const AD_NAME_SHORTENED: int := 0x08
  const AD_NAME_COMPLETE: int := 0x09
  const AD_APPEARANCE: int := 0x19
  const UUID_HIDS: int := 0x1812
  const APPEARANCE_GENERIC_HID: int := 0x03c0
  const APPEARANCE_HID_KEYBOARD: int := 0x03c1

  datatype Addr = Addr(kind: Byte, bytes: seq<Byte>)

  datatype Element = Element(kind: int, data: seq<Byte>)

  /** One advertisement or scan response, received `at` milliseconds of uptime. */
  datatype Packet = Packet(addr: Addr, connectable: bool, elements: seq<Element>, at: int)

  datatype Candidate = Candidate(
    inUse: bool, reported: bool, addr: Addr, connectable: bool, hid: bool, keyboard: bool,
    hasName: bool, lastSeen: int, name: string)

  datatype Filter = Filter(enabled: bool, names: seq<string>)

  const FREE: Candidate := Candidate(false, false, Addr(0, []), false, false, false, false, 0, "")

  function Fresh(addr: Addr, now: int): Candidate {
    Candidate(true, false, addr, false, false, false, false, now, "")
  }

  // ---------- Reading advertisements ----------

  function Le16At(data: seq<Byte>, at: nat): int
    requires at + 1 < |data|
  {
    data[at] as int + 0x100 * data[at + 1] as int
  }

  predicate ListsHid(data: seq<Byte>) {
    exists k: nat :: k < |data| / 2 && Le16At(data, 2 * k) == UUID_HIDS
  }

  predicate KeyboardFamily(appearance: int) {
    appearance == APPEARANCE_HID_KEYBOARD || appearance == APPEARANCE_GENERIC_HID
  }

  predicate ElementIsHid(e: Element) {
    (e.kind == AD_UUID16_SOME || e.kind == AD_UUID16_ALL) && ListsHid(e.data)
  }

  predicate ElementIsKeyboard(e: Element) {
    e.kind == AD_APPEARANCE && |e.data| >= 2 && KeyboardFamily(Le16At(e.data, 0))
  }

  /** The bytes up to the first NUL, as the C string they are. */
  function CText(data: seq<Byte>): string {
    if data == [] || data[0] == 0 then "" else [data[0] as int as char] + CText(data[1..])
  }

  function NameBytes(data: seq<Byte>): seq<Byte> {
    data[..Min(|data|, PairingFilter.NAME_MAX)]
  }

  /** parse_ad_element */
  function ParseElement(c: Candidate, e: Element): Candidate {
    if e.kind == AD_UUID16_SOME || e.kind == AD_UUID16_ALL then c.(hid := c.hid || ListsHid(e.data))
    else if e.kind == AD_APPEARANCE then c.(keyboard := c.keyboard || ElementIsKeyboard(e))
    else if e.kind == AD_NAME_COMPLETE || e.kind == AD_NAME_SHORTENED then
      c.(name := CText(NameBytes(e.data)), hasName := e.data != [])
    else c
  }

  /** The first `n` bytes as a C string: the whole one, if it ends before. */
  lemma {:induction false} TextOfPrefix(data: seq<Byte>, n: nat)
    requires n <= |data|
    ensures CText(data[..n]) == if |CText(data)| <= n then CText(data) else CText(data)[..n]
  {
    if data != [] && data[0] != 0 && n > 0 {
      TextOfPrefix(data[1..], n - 1);
      assert data[..n][1..] == data[1..][..n - 1];
    }
  }

  lemma {:induction false} TextFits(data: seq<Byte>)
    ensures |CText(data)| <= |data|
  {
    if data != [] && data[0] != 0 {
      TextFits(data[1..]);
    }
  }

  /** What the scanner stores of an advertised name is that name truncated. */
  lemma StoredNameIsTruncated(data: seq<Byte>)
    ensures CText(NameBytes(data)) == PairingFilter.Truncated(CText(data))
  {
    TextFits(data);
    TextOfPrefix(data, Min(|data|, PairingFilter.NAME_MAX));
  }

  function ParseElements(c: Candidate, elements: seq<Element>): Candidate {
    if elements == [] then c
    else ParseElement(ParseElements(c, elements[..|elements| - 1]), elements[|elements| - 1])
  }

  // ---------- What the bytes say ----------

  /** A list of 16-bit UUIDs (types 0x02 and 0x03) with the HID service, 0x1812, in it. */
  ghost predicate SaysHid(e: Element) {
    (e.kind == 0x02 || e.kind == 0x03)
    && exists k: nat :: 2 * k + 1 < |e.data| && ByteAt(e.data, 2 * k) == 0x12 && ByteAt(e.data, 2 * k + 1) == 0x18
  }

  function ByteAt(data: seq<Byte>, i: nat): Byte
    requires i < |data|
  {
    data[i]
  }

  /** An appearance (type 0x19) of 0x03c0, generic HID, or 0x03c1, keyboard. */
  predicate SaysKeyboard(e: Element) {
    e.kind == 0x19 && |e.data| >= 2 && e.data[1] == 0x03 && (e.data[0] == 0xc0 || e.data[0] == 0xc1)
  }

  /** A complete or shortened name (types 0x09 and 0x08). */
  predicate SaysName(e: Element) {
    e.kind == 0x08 || e.kind == 0x09
  }

  lemma HidByBytes(e: Element)
    ensures ElementIsHid(e) <==> SaysHid(e)
  {
    if ElementIsHid(e) {
      var k: nat :| k < |e.data| / 2 && Le16At(e.data, 2 * k) == UUID_HIDS;
      assert ByteAt(e.data, 2 * k) == 0x12 && ByteAt(e.data, 2 * k + 1) == 0x18;
    }
    if SaysHid(e) {
      var k: nat :| 2 * k + 1 < |e.data| && ByteAt(e.data, 2 * k) == 0x12 && ByteAt(e.data, 2 * k + 1) == 0x18;
      assert Le16At(e.data, 2 * k) == UUID_HIDS;
    }
  }

  lemma KeyboardByBytes(e: Element)
    ensures ElementIsKeyboard(e) <==> SaysKeyboard(e)
  {
    if |e.data| >= 2 {
      assert Le16At(e.data, 0) == e.data[0] as int + 0x100 * e.data[1] as int;
    }
  }

  /** The text of a name: what comes before the first NUL, 32 bytes at most. */
  ghost predicate IsText(text: string, data: seq<Byte>) {
    && |text| <= |data| && |text| <= 32
    && (forall i :: 0 <= i < |text| ==> data[i] != 0 && text[i] as int == data[i] as int)
    && (|text| == |data| || |text| == 32 || data[|text|] == 0)
  }

  lemma {:induction false} TextOfBytes(data: seq<Byte>)
    ensures |CText(data)| <= |data|
    ensures forall i :: 0 <= i < |CText(data)| ==> data[i] != 0 && CText(data)[i] as int == data[i] as int
    ensures |CText(data)| < |data| ==> data[|CText(data)|] == 0
  {
    if data != [] && data[0] != 0 {
      TextOfBytes(data[1..]);
    }
  }

  lemma StoredText(data: seq<Byte>)
    ensures IsText(CText(NameBytes(data)), data)
  {
    TextOfBytes(NameBytes(data));
  }

  /** The name known after some elements: that of the last name element, if it is not empty. */
  ghost predicate NameAfter(elements: seq<Element>, before: Option<string>, name: Option<string>) {
    if elements == [] then name == before
    else
      var last := elements[|elements| - 1];
      if !SaysName(last) then NameAfter(elements[..|elements| - 1], before, name)
      else if last.data == [] then name.None?
      else name.Some? && IsText(name.value, last.data)
  }

  ghost predicate AnyHid(elements: seq<Element>) {
    exists i :: 0 <= i < |elements| && SaysHid(elements[i])
  }

  ghost predicate AnyKeyboard(elements: seq<Element>) {
    exists i :: 0 <= i < |elements| && SaysKeyboard(elements[i])
  }

  function NameOf(c: Candidate): Option<string> {
    if c.hasName then Some(c.name) else None
  }

  function Absorb(c: Candidate, p: Packet): Candidate {
    ParseElements(c.(connectable := c.connectable || p.connectable), p.elements)
  }

  lemma ParseElementOrs(c: Candidate, e: Element)
    ensures var r := ParseElement(c, e);
            && r == c.(hid := r.hid, keyboard := r.keyboard, name := r.name, hasName := r.hasName)
            && (r.hid <==> c.hid || SaysHid(e))
            && (r.keyboard <==> c.keyboard || SaysKeyboard(e))
            && (if !SaysName(e) then NameOf(r) == NameOf(c)
                else if e.data == [] then NameOf(r).None? else NameOf(r).Some? && IsText(r.name, e.data))
  {
    HidByBytes(e);
    KeyboardByBytes(e);
    StoredText(e.data);
  }

  lemma AnyAppends(front: seq<Element>, e: Element)
    ensures AnyHid(front + [e]) <==> AnyHid(front) || SaysHid(e)
    ensures AnyKeyboard(front + [e]) <==> AnyKeyboard(front) || SaysKeyboard(e)
  {
    var all := front + [e];
    assert all[|front|] == e;
    assert forall i :: 0 <= i < |front| ==> all[i] == front[i];
  }

  lemma {:induction false} ParseElementsOrs(c: Candidate, elements: seq<Element>)
    ensures var r := ParseElements(c, elements);
            && r == c.(hid := r.hid, keyboard := r.keyboard, name := r.name, hasName := r.hasName)
            && (r.hid <==> c.hid || AnyHid(elements))
            && (r.keyboard <==> c.keyboard || AnyKeyboard(elements))
            && NameAfter(elements, NameOf(c), NameOf(r))
  {
    if elements != [] {
      var front, last := elements[..|elements| - 1], elements[|elements| - 1];
      ParseElementsOrs(c, front);
      ParseElementOrs(ParseElements(c, front), last);
      AnyAppends(front, last);
      assert elements == front + [last];
    }
  }

  // ---------- Choosing a slot ----------

  predicate Holds(c: Candidate, addr: Addr) {
    c.inUse && c.addr == addr
  }

  predicate Stale(c: Candidate, now: int) {
    c.inUse && now - c.lastSeen >= STALE_MS
  }

  ghost predicate AnyHolds(cache: seq<Candidate>, addr: Addr) {
    exists k :: 0 <= k < |cache| && Holds(cache[k], addr)
  }

  ghost predicate AllInUse(cache: seq<Candidate>) {
    forall k :: 0 <= k < |cache| ==> cache[k].inUse
  }

  ghost predicate AnyStale(cache: seq<Candidate>, now: int) {
    exists k :: 0 <= k < |cache| && Stale(cache[k], now)
  }

  /**
   What find_candidate_slot must answer: the first slot of the address, else the first free one, else
   the first stale one, else the first of the oldest.
   */
  ghost predicate IsSlotFor(cache: seq<Candidate>, addr: Addr, now: int, i: nat) {
    && i < |cache|
    && if AnyHolds(cache, addr) then Holds(cache[i], addr) && forall k :: 0 <= k < i ==> !Holds(cache[k], addr)
       else if !AllInUse(cache) then !cache[i].inUse && forall k :: 0 <= k < i ==> cache[k].inUse
       else if AnyStale(cache, now) then Stale(cache[i], now) && forall k :: 0 <= k < i ==> !Stale(cache[k], now)
       else (forall k :: 0 <= k < |cache| ==> cache[i].lastSeen <= cache[k].lastSeen)
            && forall k :: 0 <= k < i ==> cache[i].lastSeen < cache[k].lastSeen
  }

  /** A slot that is not stale loses its address only in a full cache with none stale, and as the oldest. */
  lemma EvictsOnlyTheOldest(cache: seq<Candidate>, addr: Addr, now: int, i: nat)
    requires IsSlotFor(cache, addr, now, i)
    requires cache[i].inUse && cache[i].addr != addr && now - cache[i].lastSeen < 3000
    ensures AllInUse(cache) && !AnyHolds(cache, addr)
    ensures forall k :: 0 <= k < |cache| ==> now - cache[k].lastSeen < 3000
    ensures forall k :: 0 <= k < |cache| ==> cache[i].lastSeen <= cache[k].lastSeen
  {
  }

  lemma NoLaterSlot(cache: seq<Candidate>, addr: Addr, now: int, i: nat, j: nat)
    requires IsSlotFor(cache, addr, now, i) && i < j < |cache|
    ensures !IsSlotFor(cache, addr, now, j)
  {
    var c := cache[i];
  }

  /** The answer is unique. */
  lemma SlotIsUnique(cache: seq<Candidate>, addr: Addr, now: int, i: nat, j: nat)
    requires IsSlotFor(cache, addr, now, i) && IsSlotFor(cache, addr, now, j)
    ensures i == j
  {
    if i < j {
      NoLaterSlot(cache, addr, now, i, j);
    } else if j < i {
      NoLaterSlot(cache, addr, now, j, i);
    }
  }

  /** The slot after find_candidate_slot: refreshed, or initialised for the address. */
  function Claim(c: Candidate, addr: Addr, now: int): Candidate {
    if Holds(c, addr) then c.(lastSeen := now) else Fresh(addr, now)
  }

  predicate Accepts(f: Filter, c: Candidate) {
    && c.connectable && c.hid && c.keyboard
    && PairingFilter.Allowed(f.enabled, f.names, NameOf(c))
  }

  /** The filter decides on a packet's name element as it would on the whole name in its bytes. */
  lemma ScannerTruncationIsHarmless(f: Filter, c: Candidate, e: Element)
    requires SaysName(e)
    requires PairingFilter.AllShort(f.names)
    ensures Accepts(f, ParseElement(c, e)) <==> Accepts(f, ParseElement(c, e).(name := CText(e.data)))
  {
    StoredNameIsTruncated(e.data);
    PairingFilter.TruncationIsHarmless(f.enabled, f.names, CText(e.data));
  }

  /** maybe_log_pairing_candidate */
  function Judge(f: Filter, c: Candidate): Candidate {
    if !c.reported && Accepts(f, c) then c.(reported := true) else c
  }

  function Receive(f: Filter, c: Candidate, p: Packet, pairing: bool): Candidate {
    var c' := Absorb(Claim(c, p.addr, p.at), p);
    if pairing then Judge(f, c') else c'
  }

  /** What receiving a packet does to the slot that was chosen for it. */
  lemma ReceiveFacts(f: Filter, c: Candidate, p: Packet, pairing: bool)
    ensures var r := Receive(f, c, p, pairing);
            var kept := Holds(c, p.addr);
            && Holds(r, p.addr) && r.lastSeen == p.at
            && (r.connectable <==> (kept && c.connectable) || p.connectable)
            && (r.hid <==> (kept && c.hid) || AnyHid(p.elements))
            && (r.keyboard <==> (kept && c.keyboard) || AnyKeyboard(p.elements))
            && NameAfter(p.elements, if kept then NameOf(c) else None, NameOf(r))
            && (r.reported <==> (kept && c.reported) || (pairing && Accepts(f, r)))
  {
    var start := Claim(c, p.addr, p.at);
    ParseElementsOrs(start.(connectable := start.connectable || p.connectable), p.elements);
  }

  // ---------- The cache over a whole run ----------

  /** A packet as it was received: in pairing mode or not. */
  datatype Entry = Entry(packet: Packet, pairing: bool)

  /** `born` and `cleared` say how much had been received when a slot was initialised and the cache cleared. */
  datatype State = State(cache: seq<Candidate>, log: seq<Entry>, born: seq<nat>, cleared: nat)

  datatype Op = Recv(packet: Packet, slot: nat, pairing: bool) | Clear

  const EMPTY: seq<Candidate> := [FREE, FREE, FREE, FREE, FREE, FREE, FREE, FREE]

  function Init(): State {
    State(EMPTY, [], [0, 0, 0, 0, 0, 0, 0, 0], 0)
  }

  ghost predicate Legal(s: State, op: Op) {
    op.Recv? ==> IsSlotFor(s.cache, op.packet.addr, op.packet.at, op.slot)
  }

  function Step(f: Filter, s: State, op: Op): State {
    match op
    case Clear => s.(cache := EMPTY, cleared := |s.log|)
    case Recv(p, i, pairing) =>
      if i >= |s.cache| || i >= |s.born| then s
      else State(
          s.cache[i := Receive(f, s.cache[i], p, pairing)],
          s.log + [Entry(p, pairing)],
          if Holds(s.cache[i], p.addr) then s.born else s.born[i := |s.log|],
          s.cleared)
  }

  function Run(f: Filter, ops: seq<Op>): State {
    if ops == [] then Init() else Step(f, Run(f, ops[..|ops| - 1]), ops[|ops| - 1])
  }

  ghost predicate LegalRun(f: Filter, ops: seq<Op>) {
    ops == [] || (LegalRun(f, ops[..|ops| - 1]) && Legal(Run(f, ops[..|ops| - 1]), ops[|ops| - 1]))
  }

  ghost predicate Distinct(cache: seq<Candidate>) {
    forall i, j :: 0 <= i < |cache| && 0 <= j < |cache| && cache[i].inUse && Holds(cache[j], cache[i].addr) ==> i == j
  }

  /** Packet `k` came from this address while its slot has been the current one. */
  ghost predicate Counted(log: seq<Entry>, addr: Addr, born: nat, k: int) {
    born <= k < |log| && log[k].packet.addr == addr
  }

  /** Some packet counted for the slot has the property. */
  ghost predicate Ever(log: seq<Entry>, addr: Addr, born: nat, what: Packet -> bool) {
    exists k :: Counted(log, addr, born, k) && what(log[k].packet)
  }

  /** The last packet from the address was counted, at time `at`. */
  ghost predicate LastHeard(log: seq<Entry>, addr: Addr, born: nat, at: int) {
    exists k :: Counted(log, addr, born, k) && log[k].packet.at == at
                && forall m :: k < m < |log| ==> log[m].packet.addr != addr
  }

  ghost const CONNECTABLE: Packet -> bool := (p: Packet) => p.connectable
  ghost const HID: Packet -> bool := (p: Packet) => AnyHid(p.elements)
  ghost const KEYBOARD: Packet -> bool := (p: Packet) => AnyKeyboard(p.elements)

  /** `name` is the last one that the packets counted for the slot have told. */
  ghost predicate Named(log: seq<Entry>, addr: Addr, born: nat, name: Option<string>) {
    if |log| <= born then name.None?
    else
      var p := log[|log| - 1].packet;
      if p.addr != addr then Named(log[..|log| - 1], addr, born, name)
      else exists before :: Named(log[..|log| - 1], addr, born, before) && NameAfter(p.elements, before, name)
  }

  /**
   What the packets of this address have told since the slot was initialised makes it a keyboard to pair
   with: connectable, a HID service, a keyboard's appearance, and a name that the allowlist lets through.
   */
  ghost predicate Qualifies(f: Filter, log: seq<Entry>, addr: Addr, born: nat) {
    && Ever(log, addr, born, CONNECTABLE) && Ever(log, addr, born, HID) && Ever(log, addr, born, KEYBOARD)
    && exists name :: Named(log, addr, born, name) && PairingFilter.Allowed(f.enabled, f.names, name)
  }

  /** Packet `k` came in pairing mode, and with it the address qualified. */
  ghost predicate QualifiedAt(f: Filter, log: seq<Entry>, addr: Addr, born: nat, k: nat) {
    Counted(log, addr, born, k) && log[k].pairing && Qualifies(f, log[..k + 1], addr, born)
  }

  /** At some packet of its own, received in pairing mode, the slot's address qualified. */
  ghost predicate EverQualified(f: Filter, log: seq<Entry>, addr: Addr, born: nat) {
    exists k: nat :: QualifiedAt(f, log, addr, born, k)
  }

  /** A slot holds what its packets have told, and is reported exactly if it qualified. */
  ghost predicate Accounted(f: Filter, c: Candidate, log: seq<Entry>, born: nat) {
    && (c.connectable <==> Ever(log, c.addr, born, CONNECTABLE))
    && (c.hid <==> Ever(log, c.addr, born, HID))
    && (c.keyboard <==> Ever(log, c.addr, born, KEYBOARD))
    && Named(log, c.addr, born, NameOf(c))
    && LastHeard(log, c.addr, born, c.lastSeen)
    && (c.reported <==> EverQualified(f, log, c.addr, born))
  }

  ghost predicate Inv(f: Filter, s: State) {
    && |s.cache| == |s.born| == 8
    && s.cleared <= |s.log|
    && Distinct(s.cache)
    && (forall i :: 0 <= i < 8 ==> s.born[i] <= |s.log|)
    && forall i :: 0 <= i < 8 && s.cache[i].inUse ==>
         s.cleared <= s.born[i] && Accounted(f, s.cache[i], s.log, s.born[i])
  }

  lemma EverAppends(log: seq<Entry>, addr: Addr, born: nat, what: Packet -> bool, e: Entry)
    requires born <= |log|
    ensures Ever(log + [e], addr, born, what) <==>
              Ever(log, addr, born, what) || (e.packet.addr == addr && what(e.packet))
  {
    var log' := log + [e];
    assert log'[|log|] == e;
    assert Counted(log', addr, born, |log|) <==> e.packet.addr == addr;
    assert forall k :: Counted(log, addr, born, k) ==> Counted(log', addr, born, k) && log'[k] == log[k];
  }

  lemma {:induction false} NamesAgree(elements: seq<Element>, before: Option<string>,
    a: Option<string>, b: Option<string>)
    requires NameAfter(elements, before, a) && NameAfter(elements, before, b)
    ensures a == b
  {
    if elements != [] {
      var last := elements[|elements| - 1];
      if !SaysName(last) {
        NamesAgree(elements[..|elements| - 1], before, a, b);
      } else if last.data != [] {
        TextsAgree(a.value, b.value, last.data);
      }
    }
  }

  lemma NoLongerText(a: string, b: string, data: seq<Byte>)
    requires IsText(a, data) && IsText(b, data)
    ensures |b| <= |a|
  {
  }

  lemma TextsAgree(a: string, b: string, data: seq<Byte>)
    requires IsText(a, data) && IsText(b, data)
    ensures a == b
  {
    NoLongerText(a, b, data);
    NoLongerText(b, a, data);
    assert forall i :: 0 <= i < |a| ==> a[i] == b[i];
  }

  /** The packets tell one name. */
  lemma {:induction false} NamedOnce(log: seq<Entry>, addr: Addr, born: nat, a: Option<string>, b: Option<string>)
    requires Named(log, addr, born, a) && Named(log, addr, born, b)
    ensures a == b
  {
    if |log| > born {
      var front, p := log[..|log| - 1], log[|log| - 1].packet;
      if p.addr != addr {
        NamedOnce(front, addr, born, a, b);
      } else {
        var m :| Named(front, addr, born, m) && NameAfter(p.elements, m, a);
        var n :| Named(front, addr, born, n) && NameAfter(p.elements, n, b);
        NamedOnce(front, addr, born, m, n);
        NamesAgree(p.elements, m, a, b);
      }
    }
  }

  lemma NamedAppends(log: seq<Entry>, addr: Addr, born: nat, e: Entry, before: Option<string>, name: Option<string>)
    requires born <= |log|
    requires if e.packet.addr == addr
             then Named(log, addr, born, before) && NameAfter(e.packet.elements, before, name)
             else Named(log, addr, born, name)
    ensures Named(log + [e], addr, born, name)
  {
    assert (log + [e])[..|log|] == log;
  }

  lemma QualifiedStays(f: Filter, log: seq<Entry>, addr: Addr, born: nat, e: Entry, k: nat)
    requires k < |log|
    ensures QualifiedAt(f, log + [e], addr, born, k) <==> QualifiedAt(f, log, addr, born, k)
  {
    assert (log + [e])[..k + 1] == log[..k + 1];
  }

  lemma QualifiedNow(f: Filter, log: seq<Entry>, addr: Addr, born: nat, e: Entry)
    requires born <= |log|
    ensures QualifiedAt(f, log + [e], addr, born, |log|) <==>
              e.packet.addr == addr && e.pairing && Qualifies(f, log + [e], addr, born)
  {
    assert (log + [e])[..|log| + 1] == log + [e];
  }

  lemma QualifiedAppends(f: Filter, log: seq<Entry>, addr: Addr, born: nat, e: Entry)
    requires born <= |log|
    ensures EverQualified(f, log + [e], addr, born) <==>
              || EverQualified(f, log, addr, born)
              || (e.packet.addr == addr && e.pairing && Qualifies(f, log + [e], addr, born))
  {
    QualifiedNow(f, log, addr, born, e);
    if EverQualified(f, log, addr, born) {
      var k: nat :| QualifiedAt(f, log, addr, born, k);
      QualifiedStays(f, log, addr, born, e, k);
    }
    if EverQualified(f, log + [e], addr, born) {
      var k: nat :| QualifiedAt(f, log + [e], addr, born, k);
      if k < |log| {
        QualifiedStays(f, log, addr, born, e, k);
      }
    }
  }

  /** A packet from elsewhere changes nothing about a slot. */
  lemma AccountedElsewhere(f: Filter, c: Candidate, log: seq<Entry>, born: nat, e: Entry)
    requires born <= |log| && Accounted(f, c, log, born) && e.packet.addr != c.addr
    ensures Accounted(f, c, log + [e], born)
  {
    EverAppends(log, c.addr, born, CONNECTABLE, e);
    EverAppends(log, c.addr, born, HID, e);
    EverAppends(log, c.addr, born, KEYBOARD, e);
    NamedAppends(log, c.addr, born, e, None, NameOf(c));
    QualifiedAppends(f, log, c.addr, born, e);
    HeardElsewhere(log, c.addr, born, c.lastSeen, e);
  }

  lemma HeardElsewhere(log: seq<Entry>, addr: Addr, born: nat, at: int, e: Entry)
    requires LastHeard(log, addr, born, at) && e.packet.addr != addr
    ensures LastHeard(log + [e], addr, born, at)
  {
    var k :| Counted(log, addr, born, k) && log[k].packet.at == at
             && forall m :: k < m < |log| ==> log[m].packet.addr != addr;
    assert Counted(log + [e], addr, born, k);
  }

  lemma NothingYet(f: Filter, log: seq<Entry>, addr: Addr, what: Packet -> bool)
    ensures !Ever(log, addr, |log|, what) && Named(log, addr, |log|, None) && !EverQualified(f, log, addr, |log|)
  {
  }

  /** What a slot holds is what the packets have told, so the filter decides alike on both. */
  lemma AcceptsWhatQualifies(f: Filter, c: Candidate, log: seq<Entry>, born: nat)
    requires c.connectable <==> Ever(log, c.addr, born, CONNECTABLE)
    requires c.hid <==> Ever(log, c.addr, born, HID)
    requires c.keyboard <==> Ever(log, c.addr, born, KEYBOARD)
    requires Named(log, c.addr, born, NameOf(c))
    ensures Accepts(f, c) <==> Qualifies(f, log, c.addr, born)
  {
    if Qualifies(f, log, c.addr, born) {
      var name :| Named(log, c.addr, born, name) && PairingFilter.Allowed(f.enabled, f.names, name);
      NamedOnce(log, c.addr, born, name, NameOf(c));
    }
  }

  lemma OwnPacketTells(f: Filter, c: Candidate, log: seq<Entry>, born: nat, e: Entry)
    requires born <= |log|
    requires Holds(c, e.packet.addr) ==> Accounted(f, c, log, born)
    ensures var born' := if Holds(c, e.packet.addr) then born else |log|;
            var r := Receive(f, c, e.packet, e.pairing);
            && (r.connectable <==> Ever(log + [e], r.addr, born', CONNECTABLE))
            && (r.hid <==> Ever(log + [e], r.addr, born', HID))
            && (r.keyboard <==> Ever(log + [e], r.addr, born', KEYBOARD))
            && Named(log + [e], r.addr, born', NameOf(r))
  {
    var p := e.packet;
    var born' := if Holds(c, p.addr) then born else |log|;
    ReceiveFacts(f, c, p, e.pairing);
    forall what | what == CONNECTABLE || what == HID || what == KEYBOARD
      ensures Ever(log + [e], p.addr, born', what) <==> (Holds(c, p.addr) && Ever(log, p.addr, born, what)) || what(p)
    {
      EverAppends(log, p.addr, born', what, e);
      NothingYet(f, log, p.addr, what);
    }
    NothingYet(f, log, p.addr, HID);
    var before := if Holds(c, p.addr) then NameOf(c) else None;
    NamedAppends(log, p.addr, born', e, before, NameOf(Receive(f, c, p, e.pairing)));
  }

  lemma AccountedOwnPacket(f: Filter, c: Candidate, log: seq<Entry>, born: nat, e: Entry)
    requires born <= |log|
    requires Holds(c, e.packet.addr) ==> Accounted(f, c, log, born)
    ensures var born' := if Holds(c, e.packet.addr) then born else |log|;
            Accounted(f, Receive(f, c, e.packet, e.pairing), log + [e], born')
  {
    var p := e.packet;
    var born' := if Holds(c, p.addr) then born else |log|;
    var r := Receive(f, c, p, e.pairing);
    ReceiveFacts(f, c, p, e.pairing);
    OwnPacketTells(f, c, log, born, e);
    AcceptsWhatQualifies(f, r, log + [e], born');
    QualifiedAppends(f, log, p.addr, born', e);
    NothingYet(f, log, p.addr, HID);
    assert Counted(log + [e], p.addr, born', |log|);
  }

  /** A slot that was not chosen holds another address and keeps its account. */
  lemma OtherSlot(f: Filter, s: State, e: Entry, i: nat, k: nat)
    requires Inv(f, s) && IsSlotFor(s.cache, e.packet.addr, e.packet.at, i)
    requires k < 8 && k != i && s.cache[k].inUse
    ensures s.cache[k].addr != e.packet.addr && Accounted(f, s.cache[k], s.log + [e], s.born[k])
  {
    assert !Holds(s.cache[k], e.packet.addr);
    AccountedElsewhere(f, s.cache[k], s.log, s.born[k], e);
  }

  lemma UpdateKeepsDistinct(cache: seq<Candidate>, i: nat, c: Candidate)
    requires Distinct(cache) && i < |cache|
    requires forall k :: 0 <= k < |cache| && k != i && cache[k].inUse ==> cache[k].addr != c.addr
    ensures Distinct(cache[i := c])
  {
  }

  lemma RecvKeepsInv(f: Filter, s: State, p: Packet, i: nat, pairing: bool)
    requires Inv(f, s) && IsSlotFor(s.cache, p.addr, p.at, i)
    ensures Inv(f, Step(f, s, Recv(p, i, pairing)))
  {
    var s' := Step(f, s, Recv(p, i, pairing));
    var e := Entry(p, pairing);
    ReceiveFacts(f, s.cache[i], p, pairing);
    AccountedOwnPacket(f, s.cache[i], s.log, s.born[i], e);
    forall k | 0 <= k < 8 && k != i && s.cache[k].inUse
      ensures s.cache[k].addr != p.addr && Accounted(f, s.cache[k], s'.log, s.born[k])
    {
      OtherSlot(f, s, e, i, k);
    }
    UpdateKeepsDistinct(s.cache, i, s'.cache[i]);
  }

  lemma StepKeepsInv(f: Filter, s: State, op: Op)
    requires Inv(f, s) && Legal(s, op)
    ensures Inv(f, Step(f, s, op))
  {
    if op.Recv? {
      RecvKeepsInv(f, s, op.packet, op.slot, op.pairing);
    }
  }

  /**
   Over every run of packets and clears: in-use addresses stay distinct; a slot's flags are the OR over its
   own packets since it was initialised, which was after the last clear, and its name the last they told;
   and a slot is reported exactly if in pairing mode its packets have made it a keyboard to pair with.
   */
  lemma {:induction false} CacheAccountsForPackets(f: Filter, ops: seq<Op>)
    requires LegalRun(f, ops)
    ensures Inv(f, Run(f, ops))
  {
    if ops != [] {
      CacheAccountsForPackets(f, ops[..|ops| - 1]);
      StepKeepsInv(f, Run(f, ops[..|ops| - 1]), ops[|ops| - 1]);
    }
  }

  /** A pairing connection is asked for: on_scan_recv found its slot reported, in pairing mode. */
  predicate Pairs(f: Filter, s: State, op: Op) {
    op.Recv? && op.pairing && op.slot < |Step(f, s, op).cache| && Step(f, s, op).cache[op.slot].reported
  }

  /**
   After any run, a packet makes the scanner ask for a pairing connection exactly if it comes in pairing
   mode, and this packet or an earlier one in pairing mode, since the slot was initialised, completed the
   evidence for its address.
   */
  lemma PairsExactly(f: Filter, ops: seq<Op>, op: Op)
    requires LegalRun(f, ops + [op]) && op.Recv?
    ensures var s := Run(f, ops);
            var t := Step(f, s, op);
            && op.slot < |t.born| == 8
            && (Pairs(f, s, op) <==> op.pairing && EverQualified(f, t.log, op.packet.addr, t.born[op.slot]))
            && t.log == s.log + [Entry(op.packet, op.pairing)] && s.cleared <= t.born[op.slot] <= |s.log|
            && (!AnyHolds(s.cache, op.packet.addr) ==> t.born[op.slot] == |s.log|)
  {
    assert (ops + [op])[..|ops|] == ops;
    CacheAccountsForPackets(f, ops);
    var s := Run(f, ops);
    StepKeepsInv(f, s, op);
    ReceiveFacts(f, s.cache[op.slot], op.packet, op.pairing);
    assert Accounted(f, Step(f, s, op).cache[op.slot], Step(f, s, op).log, Step(f, s, op).born[op.slot]);
  }

  /** The cache as a map from addresses, which Distinct makes well defined. */
  ghost predicate Maps(cache: seq<Candidate>, addr: Addr, c: Candidate) {
    Holds(c, addr) && c in cache
  }

  /** Receiving a packet updates one address of a bounded map, evicting at most one entry. */
  lemma RefinesBoundedMap(f: Filter, s: State, op: Op, addr: Addr, c: Candidate)
    requires Inv(f, s) && op.Recv? && Legal(s, op)
    ensures var p := op.packet;
            var victim := s.cache[op.slot];
            var after := Step(f, s, op).cache;
            Maps(after, addr, c) <==>
              if addr == p.addr then c == Receive(f, victim, p, op.pairing)
              else Maps(s.cache, addr, c) && c != victim
  {
    var p, i := op.packet, op.slot;
    var after := Step(f, s, op).cache;
    ReceiveFacts(f, s.cache[i], p, op.pairing);
    StepKeepsInv(f, s, op);
    if Maps(after, addr, c) {
      var k :| 0 <= k < |after| && after[k] == c;
      assert addr == p.addr ==> k == i;
      assert k != i ==> s.cache[k] == c && (c == s.cache[i] ==> k == i);
    }
    if Maps(s.cache, addr, c) && c != s.cache[i] {
      var k :| 0 <= k < |s.cache| && s.cache[k] == c;
      assert after[k] == c;
    }
    assert after[i] == Receive(f, s.cache[i], p, op.pairing);
  }

  // ---------- The code ----------

  class Cache {
    const slots: array<Candidate>
    const filter: Filter

    ghost predicate Valid()
      reads this, slots
    {
      slots.Length == CACHE_SIZE && forall i :: 0 <= i < slots.Length ==> slots[i].lastSeen < INT64_MAX
    }

    constructor (filter: Filter)
      ensures Valid() && fresh(slots) && slots[..] == EMPTY && this.filter == filter
    {
      this.filter := filter;
      slots := new Candidate[CACHE_SIZE](_ => FREE);
    }

    method ResetCandidateCache()
      requires Valid()
      modifies slots
      ensures Valid() && slots[..] == EMPTY
    {
      for i := 0 to CACHE_SIZE
        invariant forall k :: 0 <= k < i ==> slots[k] == FREE
        invariant forall k :: i <= k < CACHE_SIZE ==> slots[k] == old(slots[k])
      {
        slots[i] := FREE;
      }
    }

    /** find_candidate_slot; the four answers of its scan are the locals of the C loop. */
    method FindCandidateSlot(addr: Addr, now: int) returns (slot: nat)
      requires Valid() && now < INT64_MAX
      modifies slots
      ensures Valid() && IsSlotFor(old(slots[..]), addr, now, slot)
      ensures slots[..] == old(slots[..])[slot := Claim(old(slots[..])[slot], addr, now)]
    {
      var free: Option<nat>, stale: Option<nat>, oldest: Option<nat> := None, None, None;
      var oldestSeen := INT64_MAX;
      for i := 0 to CACHE_SIZE
        invariant slots[..] == old(slots[..])
        invariant forall k :: 0 <= k < i ==> !Holds(slots[k], addr)
        invariant free.None? ==> forall k :: 0 <= k < i ==> slots[k].inUse
        invariant free.Some? ==> free.value < i && !slots[free.value].inUse
        invariant free.Some? ==> forall k :: 0 <= k < free.value ==> slots[k].inUse
        invariant stale.None? ==> forall k :: 0 <= k < i ==> !Stale(slots[k], now)
        invariant stale.Some? ==> stale.value < i && Stale(slots[stale.value], now)
        invariant stale.Some? ==> forall k :: 0 <= k < stale.value ==> !Stale(slots[k], now)
        invariant oldest.None? ==> oldestSeen == INT64_MAX && forall k :: 0 <= k < i ==> !slots[k].inUse
        invariant oldest.Some? ==> oldest.value < i && slots[oldest.value].inUse
        invariant oldest.Some? ==> slots[oldest.value].lastSeen == oldestSeen
        invariant oldest.Some? ==> forall k :: 0 <= k < i && slots[k].inUse ==> oldestSeen <= slots[k].lastSeen
        invariant oldest.Some? ==>
                    forall k :: 0 <= k < oldest.value && slots[k].inUse ==> oldestSeen < slots[k].lastSeen
      {
        if slots[i].inUse && slots[i].addr == addr {
          slots[i] := slots[i].(lastSeen := now);
          return i;
        }
        if !slots[i].inUse && free.None? {
          free := Some(i);
          continue;
        }
        if slots[i].inUse && now - slots[i].lastSeen >= STALE_MS && stale.None? {
          stale := Some(i);
        }
        if slots[i].inUse && slots[i].lastSeen < oldestSeen {
          oldestSeen := slots[i].lastSeen;
          oldest := Some(i);
        }
      }
      if free.Some? {
        slot := free.value;
      } else if stale.Some? {
        slot := stale.value;
      } else {
        assert slots[0].inUse;
        slot := oldest.value;
      }
      assert !Holds(slots[slot], addr);
      slots[slot] := Fresh(addr, now);
    }

    method ScanUuids(data: seq<Byte>) returns (found: bool)
      ensures found <==> ListsHid(data)
    {
      var offset: nat := 0;
      while offset + 2 <= |data|
        invariant offset % 2 == 0 && offset <= |data|
        invariant forall k: nat :: 2 * k < offset ==> Le16At(data, 2 * k) != UUID_HIDS
      {
        if Le16At(data, offset) == UUID_HIDS {
          assert offset == 2 * (offset / 2);
          return true;
        }
        offset := offset + 2;
      }
      return false;
    }

    method ParseAdElement(c: Candidate, e: Element) returns (r: Candidate)
      ensures r == ParseElement(c, e)
    {
      r := c;
      if e.kind == AD_UUID16_SOME || e.kind == AD_UUID16_ALL {
        var found := ScanUuids(e.data);
        if found {
          r := r.(hid := true);
        }
      } else if e.kind == AD_APPEARANCE {
        if |e.data| >= 2 {
          r := r.(keyboard := r.keyboard || KeyboardFamily(Le16At(e.data, 0)));
        }
      } else if e.kind == AD_NAME_COMPLETE || e.kind == AD_NAME_SHORTENED {
        var copyLen := Min(|e.data|, PairingFilter.NAME_MAX);
        r := r.(name := CText(e.data[..copyLen]), hasName := copyLen > 0);
      }
    }

    /** bt_data_parse with parse_ad_element as its callback, which never stops it. */
    method ParseElementsOf(c: Candidate, elements: seq<Element>) returns (r: Candidate)
      ensures r == ParseElements(c, elements)
    {
      r := c;
      for i := 0 to |elements|
        invariant r == ParseElements(c, elements[..i])
      {
        assert elements[..i + 1][..i] == elements[..i];
        r := ParseAdElement(r, elements[i]);
      }
      assert elements[..|elements|] == elements;
    }

    /** on_scan_recv up to the connection attempt; `connect` says whether pairing asks for one. */
    method OnScanRecv(p: Packet, pairing: bool) returns (slot: nat, connect: bool)
      requires Valid() && p.at < INT64_MAX
      modifies slots
      ensures Valid() && IsSlotFor(old(slots[..]), p.addr, p.at, slot)
      ensures slots[..] == old(slots[..])[slot := Receive(filter, old(slots[..])[slot], p, pairing)]
      ensures connect <==> pairing && slots[slot].reported
    {
      slot := FindCandidateSlot(p.addr, p.at);
      ghost var before := old(slots[..])[slot];
      assert slots[..][slot] == Claim(before, p.addr, p.at);
      var c := slots[slot];
      c := ParseElementsOf(c.(connectable := c.connectable || p.connectable), p.elements);
      if pairing && !c.reported && Accepts(filter, c) {
        c := c.(reported := true);
      }
      ReceiveFacts(filter, before, p, pairing);
      slots[slot] := c;
      connect := pairing && c.reported;
    }
  }
}
