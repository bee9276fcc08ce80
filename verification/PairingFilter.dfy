/**
 The pairing name allowlist of main/src/pairing_filter.c: a tokenizer that cuts the configured
 string in place, and a case-insensitive match against the stored entries.
 */
module PairingFilter {
  import opened Basics

  const RAW_MAX: nat := 192
  const NAME_MAX: nat := 32
  const MAX_ENTRIES: nat := 8

  const NUL: char := '\0'

  /** isspace in the C locale. */
  predicate IsSpace(c: char) {
    c == ' ' || '\t' <= c <= '\r'
  }

  /** tolower in the C locale. */
  function ToLower(c: char): char {
    if 'A' <= c <= 'Z' then c - 'A' + 'a' else c
  }

  // ---------- What the configured string means ----------

  function TrimLeft(s: string): string {
    if s != "" && IsSpace(s[0]) then TrimLeft(s[1..]) else s
  }

  function TrimRight(s: string): string {
    if s != "" && IsSpace(s[|s| - 1]) then TrimRight(s[..|s| - 1]) else s
  }

  function Trim(s: string): string {
    TrimRight(TrimLeft(s))
  }

  /** Index of the first comma, or the length. */
  function FirstComma(s: string): (k: nat)
    ensures k <= |s| && (forall i :: 0 <= i < k ==> s[i] != ',') && (k < |s| ==> s[k] == ',')
    decreases |s|
  {
    if s == "" || s[0] == ',' then 0 else 1 + FirstComma(s[1..])
  }

  function AfterComma(s: string): (rest: string)
    ensures s != "" ==> |rest| < |s|
  {
    var k := FirstComma(s);
    if k < |s| then s[k + 1..] else ""
  }

  /** All comma-separated fields of a nonempty string; a trailing comma opens no field. */
  function Split(s: string): seq<string>
    decreases |s|
  {
    if s == "" then [] else [s[..FirstComma(s)]] + Split(AfterComma(s))
  }

  function NonEmptyTrimmed(fields: seq<string>): seq<string> {
    if fields == [] then []
    else (if Trim(fields[0]) == "" then [] else [Trim(fields[0])]) + NonEmptyTrimmed(fields[1..])
  }

  function Tokens(s: string): seq<string> {
    NonEmptyTrimmed(Split(s))
  }

  /** What the allowlist should be: the first 8 tokens, provided none of them is too long. */
  function FirstTokens(s: string): seq<string> {
    var all := Tokens(s);
    if |all| <= 8 then all else all[..8]
  }

  /** Every name fits an entry. */
  ghost predicate AllShort(names: seq<string>) {
    forall i :: 0 <= i < |names| ==> |names[i]| < 32
  }

  /** The names before the first that is too long. */
  function ShortPrefix(names: seq<string>): (r: seq<string>)
    ensures r <= names && AllShort(r)
    ensures |r| < |names| ==> |names[|r|]| >= 32
  {
    if names == [] || |names[0]| >= 32 then [] else [names[0]] + ShortPrefix(names[1..])
  }

  /** The loop of pairing_filter_init as a recursion over the unread part: what is stored, and the status. */
  function Parse(unread: string, found: seq<string>): (seq<string>, Status)
    decreases |unread|
  {
    if unread == "" || |found| >= MAX_ENTRIES then (found, OK)
    else
      var token := Trim(unread[..FirstComma(unread)]);
      if token == "" then Parse(AfterComma(unread), found)
      else if |token| >= NAME_MAX then (found, SIZE_MISMATCH)
      else Parse(AfterComma(unread), found + [token])
  }

  function Prefix(names: seq<string>, n: nat): seq<string> {
    if |names| <= n then names else names[..n]
  }

  lemma TokensStep(s: string)
    requires s != ""
    ensures var token := Trim(s[..FirstComma(s)]);
            Tokens(s) == (if token == "" then [] else [token]) + Tokens(AfterComma(s))
  {
    assert Split(s)[0] == s[..FirstComma(s)] && Split(s)[1..] == Split(AfterComma(s));
  }

  /** What Parse should answer when `all` are the tokens still unread. */
  ghost function Answer(all: seq<string>, found: seq<string>): (seq<string>, Status)
    requires |found| <= MAX_ENTRIES
  {
    var next := Prefix(all, MAX_ENTRIES - |found|);
    (found + ShortPrefix(next), if AllShort(next) then OK else SIZE_MISMATCH)
  }

  lemma ShortPrefixOfShort(names: seq<string>)
    requires AllShort(names)
    ensures ShortPrefix(names) == names
  {
    var r := ShortPrefix(names);
    assert |r| == |names|;
    assert r == names[..|names|];
  }

  lemma PrefixStep(token: string, later: seq<string>, room: nat)
    requires room > 0
    ensures Prefix([token] + later, room) == [token] + Prefix(later, room - 1)
  {
  }

  lemma ShortStep(token: string, next: seq<string>)
    ensures ShortPrefix([token] + next) == if |token| < NAME_MAX then [token] + ShortPrefix(next) else []
    ensures AllShort([token] + next) <==> |token| < NAME_MAX && AllShort(next)
  {
    var all := [token] + next;
    assert all[0] == token && all[1..] == next;
    assert forall i :: 0 <= i < |next| ==> all[i + 1] == next[i];
  }

  lemma ConcatAssociates(a: seq<string>, b: seq<string>, c: seq<string>)
    ensures a + (b + c) == a + b + c
  {
  }

  lemma AnswerStep(token: string, later: seq<string>, found: seq<string>)
    requires |found| < MAX_ENTRIES
    ensures Answer([token] + later, found) ==
            if |token| < NAME_MAX then Answer(later, found + [token]) else (found, SIZE_MISMATCH)
  {
    var next := Prefix(later, MAX_ENTRIES - |found| - 1);
    PrefixStep(token, later, MAX_ENTRIES - |found|);
    ShortStep(token, next);
    assert |found + [token]| == |found| + 1;
    if |token| < NAME_MAX {
      ConcatAssociates(found, [token], ShortPrefix(next));
      assert Answer(later, found + [token]) ==
             (found + [token] + ShortPrefix(next), if AllShort(next) then OK else SIZE_MISMATCH);
    } else {
      assert found + [] == found;
    }
  }

  lemma AnswerFull(all: seq<string>, found: seq<string>)
    requires |found| == MAX_ENTRIES || (all == [] && |found| <= MAX_ENTRIES)
    ensures Answer(all, found) == (found, OK)
  {
    assert found + [] == found;
  }

  lemma {:induction false} ParseFrom(unread: string, found: seq<string>)
    requires |found| <= MAX_ENTRIES
    ensures Parse(unread, found) == Answer(Tokens(unread), found)
    decreases |unread|
  {
    if unread == "" || |found| == MAX_ENTRIES {
      AnswerFull(Tokens(unread), found);
    } else {
      var token := Trim(unread[..FirstComma(unread)]);
      var rest := Tokens(AfterComma(unread));
      TokensStep(unread);
      if token == "" {
        assert [] + rest == rest;
        ParseFrom(AfterComma(unread), found);
      } else {
        AnswerStep(token, rest, found);
        if |token| < NAME_MAX {
          ParseFrom(AfterComma(unread), found + [token]);
        }
      }
    }
  }

  /** The tokenizer stores the first 8 nonempty trimmed tokens, up to an overlong one, which it rejects. */
  lemma ParseIsFirstTokens(s: string)
    ensures Parse(s, []) == (ShortPrefix(FirstTokens(s)), if AllShort(FirstTokens(s)) then OK else SIZE_MISMATCH)
  {
    ParseFrom(s, []);
    assert [] + ShortPrefix(FirstTokens(s)) == ShortPrefix(FirstTokens(s));
  }

  // ---------- What a token is ----------

  /** The six blanks of the C locale: tab, line feed, vertical tab, form feed, carriage return and space. */
  lemma BlanksAre(c: char)
    ensures IsSpace(c) <==> c as int in {9, 10, 11, 12, 13, 32}
  {
  }

  ghost predicate AllBlank(s: string) {
    forall i :: 0 <= i < |s| ==> IsSpace(s[i])
  }

  /** `t` is `s` without the blanks around it. */
  ghost predicate IsTrimmed(s: string, t: string) {
    && (exists i: nat, j: nat :: i <= j <= |s| && t == s[i..j] && AllBlank(s[..i]) && AllBlank(s[j..]))
    && (t != "" ==> !IsSpace(t[0]) && !IsSpace(t[|t| - 1]))
  }

  lemma {:induction false} TrimLeftExactly(s: string) returns (i: nat)
    ensures i <= |s| && TrimLeft(s) == s[i..] && AllBlank(s[..i])
    ensures TrimLeft(s) != "" ==> !IsSpace(TrimLeft(s)[0])
  {
    if s != "" && IsSpace(s[0]) {
      i := TrimLeftExactly(s[1..]);
      assert s[..i + 1] == [s[0]] + s[1..][..i];
      i := i + 1;
    } else {
      i := 0;
    }
  }

  lemma {:induction false} TrimRightExactly(s: string) returns (j: nat)
    ensures j <= |s| && TrimRight(s) == s[..j] && AllBlank(s[j..])
    ensures TrimRight(s) != "" ==> !IsSpace(TrimRight(s)[|TrimRight(s)| - 1])
  {
    if s != "" && IsSpace(s[|s| - 1]) {
      var n := |s| - 1;
      j := TrimRightExactly(s[..n]);
      assert s[j..] == s[..n][j..] + [s[n]];
      assert s[..n][..j] == s[..j];
    } else {
      j := |s|;
    }
  }

  /** Trimming takes away exactly the blanks at both ends. */
  lemma TrimExactly(s: string)
    ensures IsTrimmed(s, Trim(s))
  {
    var i := TrimLeftExactly(s);
    var left := TrimLeft(s);
    var k := TrimRightExactly(left);
    var j := i + k;
    assert Trim(s) == s[i..j] && s[j..] == left[k..];
    if Trim(s) != "" {
      assert Trim(s)[0] == left[0];
    }
  }

  /** `t` is a nonempty trimmed stretch of `s` between two commas or ends. */
  ghost predicate IsTokenOf(s: string, t: string) {
    t != "" && exists a: nat, b: nat :: Stretch(s, t, a, b)
  }

  /** Every token is such a stretch of the configured string. */
  lemma {:induction false} TokensAreStretches(s: string, i: nat)
    requires i < |Tokens(s)|
    ensures IsTokenOf(s, Tokens(s)[i])
    decreases |s|
  {
    var k := FirstComma(s);
    var field := s[..k];
    var token := Trim(field);
    TokensStep(s);
    TrimExactly(field);
    if token != "" && i == 0 {
      assert s[0..k] == field;
      assert Stretch(s, token, 0, k);
    } else {
      var rest := AfterComma(s);
      var m := if token == "" then i else i - 1;
      TokensAreStretches(rest, m);
      StretchOfRest(s, k, Tokens(rest)[m]);
    }
  }

  /** The stretch from `a` to `b` lies between commas or ends, and `t` is what trimming leaves of it. */
  ghost predicate Stretch(s: string, t: string, a: nat, b: nat) {
    && a <= b <= |s| && (a == 0 || s[a - 1] == ',') && (b == |s| || s[b] == ',') && ',' !in s[a..b]
    && IsTrimmed(s[a..b], t)
  }

  lemma StretchLater(s: string, k: nat, t: string, a: nat, b: nat)
    requires k < |s| && s[k] == ',' && Stretch(s[k + 1..], t, a, b)
    ensures Stretch(s, t, k + 1 + a, k + 1 + b)
  {
    assert s[k + 1..][a..b] == s[k + 1 + a..k + 1 + b];
  }

  lemma StretchOfRest(s: string, k: nat, t: string)
    requires k < |s| && s[k] == ',' && IsTokenOf(s[k + 1..], t)
    ensures IsTokenOf(s, t)
  {
    var a: nat, b: nat :| Stretch(s[k + 1..], t, a, b);
    StretchLater(s, k, t, a, b);
  }

  // ---------- Joining names and parsing them back ----------

  predicate ValidName(name: string) {
    name != "" && |name| < 32 && ',' !in name && NUL !in name
    && !IsSpace(name[0]) && !IsSpace(name[|name| - 1])
  }

  function Join(names: seq<string>): string {
    if names == [] then "" else if |names| == 1 then names[0] else names[0] + "," + Join(names[1..])
  }

  lemma {:induction false} FirstCommaIs(s: string, k: nat)
    requires k <= |s| && (forall i :: 0 <= i < k ==> s[i] != ',') && (k < |s| ==> s[k] == ',')
    ensures FirstComma(s) == k
    decreases k
  {
    if 0 < k {
      FirstCommaIs(s[1..], k - 1);
    }
  }

  lemma {:induction false} JoinSplits(names: seq<string>)
    requires forall i :: 0 <= i < |names| ==> ValidName(names[i])
    ensures Tokens(Join(names)) == names
  {
    if names != [] {
      var s := Join(names);
      var name := names[0];
      assert s[..|name|] == name;
      FirstCommaIs(s, |name|);
      assert Trim(name) == name;
      JoinSplits(names[1..]);
      if |names| == 1 {
        assert AfterComma(s) == "" && Join(names[1..]) == "";
      } else {
        assert AfterComma(s) == Join(names[1..]);
      }
      assert s != "";
      assert Split(s)[0] == name && Split(s)[1..] == Split(AfterComma(s));
      assert names == [name] + names[1..];
    }
  }

  /** Joining up to 8 valid names and parsing the result gives the list back. */
  lemma ParseInvertsJoin(names: seq<string>)
    requires |names| <= 8
    requires forall i :: 0 <= i < |names| ==> ValidName(names[i])
    ensures Parse(Join(names), []) == (names, OK)
  {
    JoinSplits(names);
    assert FirstTokens(Join(names)) == names;
    ShortPrefixOfShort(names);
    ParseIsFirstTokens(Join(names));
  }

  // ---------- Matching ----------

  function Lower(s: string): string {
    seq(|s|, i requires 0 <= i < |s| => ToLower(s[i]))
  }

  /** pairing_filter_name_allowed; None is a NULL name. */
  predicate Allowed(enabled: bool, names: seq<string>, name: Option<string>) {
    !enabled || names == []
    || (name.Some? && name.value != "" && exists i :: 0 <= i < |names| && Lower(name.value) == Lower(names[i]))
  }

  /** Two characters that differ at most in the case of a Latin letter. */
  predicate SameLetter(a: char, b: char) {
    || a == b
    || ('A' <= a <= 'Z' && b as int == a as int + 32)
    || ('A' <= b <= 'Z' && a as int == b as int + 32)
  }

  ghost predicate SameText(a: string, b: string) {
    |a| == |b| && forall i :: 0 <= i < |a| ==> SameLetter(a[i], b[i])
  }

  lemma LowerSame(a: char, b: char)
    ensures ToLower(a) == ToLower(b) <==> SameLetter(a, b)
  {
  }

  lemma LowerIsSameText(a: string, b: string)
    ensures Lower(a) == Lower(b) <==> SameText(a, b)
  {
    forall i | 0 <= i < |a| && i < |b| ensures Lower(a)[i] == Lower(b)[i] <==> SameLetter(a[i], b[i]) {
      LowerSame(a[i], b[i]);
    }
    if Lower(a) == Lower(b) {
      assert |Lower(a)| == |a| && |Lower(b)| == |b|;
    }
  }

  /**
   A name is let through exactly if the filter is off, no entry is stored, or it is not empty and equals
   a stored entry but for the case of letters.
   */
  lemma AllowedExactly(enabled: bool, names: seq<string>, name: Option<string>)
    ensures !enabled || |names| == 0 ==> Allowed(enabled, names, name)
    ensures enabled && |names| > 0 ==>
              (Allowed(enabled, names, name) <==>
                 name.Some? && |name.value| > 0 && exists i :: 0 <= i < |names| && SameText(name.value, names[i]))
  {
    if name.Some? {
      forall i | 0 <= i < |names| ensures Lower(name.value) == Lower(names[i]) <==> SameText(name.value, names[i]) {
        LowerIsSameText(name.value, names[i]);
      }
    }
  }

  /** parse_ad_element keeps at most 32 bytes of an advertised name. */
  function Truncated(name: string): string {
    if |name| <= 32 then name else name[..32]
  }

  /** Since every stored entry is shorter than 32, the scanner's truncation cannot change the answer. */
  lemma TruncationIsHarmless(enabled: bool, names: seq<string>, name: string)
    requires AllShort(names)
    ensures Allowed(enabled, names, Some(Truncated(name))) == Allowed(enabled, names, Some(name))
  {
    if |name| > NAME_MAX {
      forall i | 0 <= i < |names| ensures Lower(name) != Lower(names[i]) && Lower(Truncated(name)) != Lower(names[i]) {
        assert |Lower(names[i])| < NAME_MAX == |Lower(Truncated(name))| < |Lower(name)|;
      }
    }
  }

  // ---------- The code ----------

  ghost predicate NulFree(text: string) {
    forall i :: 0 <= i < |text| ==> text[i] != NUL
  }

  /** The C string at offset `at` of a buffer is `text`. */
  ghost predicate CString(buffer: seq<char>, at: nat, text: string) {
    && at + |text| < |buffer|
    && (forall j :: at <= j < at + |text| ==> buffer[j] == text[j - at] && buffer[j] != NUL)
    && buffer[at + |text|] == NUL
  }

  lemma CStringTail(buffer: seq<char>, at: nat, text: string)
    requires CString(buffer, at, text) && text != ""
    ensures CString(buffer, at + 1, text[1..]) && buffer[at] == text[0] && buffer[at] != NUL
  {
  }

  lemma CStringUnchanged(before: seq<char>, after: seq<char>, at: nat, text: string)
    requires CString(before, at, text) && |before| == |after|
    requires forall i :: at <= i <= at + |text| ==> before[i] == after[i]
    ensures CString(after, at, text)
  {
  }

  lemma CStringPrefix(buffer: seq<char>, at: nat, text: string, k: nat)
    requires CString(buffer, at, text) && k <= |text|
    ensures CString(buffer[at + k := NUL], at, text[..k])
  {
  }

  lemma CStringSuffix(buffer: seq<char>, at: nat, text: string, k: nat)
    requires CString(buffer, at, text) && k <= |text|
    ensures CString(buffer, at + k, text[k..]) && (k == |text| <==> buffer[at + k] == NUL)
  {
  }

  lemma CStringRest(buffer: seq<char>, at: nat, text: string, k: nat)
    requires CString(buffer, at, text) && k < |text|
    ensures CString(buffer[at + k := NUL], at + k + 1, text[k + 1..])
  {
    CStringSuffix(buffer, at, text, k + 1);
    CStringUnchanged(buffer, buffer[at + k := NUL], at + k + 1, text[k + 1..]);
  }

  /** A NUL in place of character `k` leaves the text before it and the text after it. */
  lemma CutLeaves(buffer: seq<char>, at: nat, text: string, k: nat)
    requires CString(buffer, at, text) && k <= |text|
    ensures var cut := buffer[at + k := NUL];
            && CString(cut, at, text[..k]) && (k == |text| <==> buffer[at + k] == NUL)
            && (if k < |text| then CString(cut, at + k + 1, text[k + 1..]) else CString(cut, at + k, ""))
  {
    CStringPrefix(buffer, at, text, k);
    CStringSuffix(buffer, at, text, k);
    if k < |text| {
      CStringRest(buffer, at, text, k);
    }
  }

  /** Each stored offset is where the corresponding name lies in the buffer. */
  ghost predicate Stored(buffer: seq<char>, offsets: seq<nat>, names: seq<string>) {
    && |offsets| == |names|
    && forall i :: 0 <= i < |names| ==> names[i] != "" && CString(buffer, offsets[i], names[i])
  }

  /** No stored name reaches into the part of the buffer that is still to be cut. */
  ghost predicate Before(offsets: seq<nat>, names: seq<string>, cursor: nat)
    requires |offsets| == |names|
  {
    forall i :: 0 <= i < |names| ==> offsets[i] + |names[i]| < cursor
  }

  lemma StoredUnchanged(before: seq<char>, after: seq<char>, offsets: seq<nat>, names: seq<string>, cursor: nat)
    requires Stored(before, offsets, names) && Before(offsets, names, cursor)
    requires |before| == |after| && forall i :: 0 <= i < cursor && i < |before| ==> before[i] == after[i]
    ensures Stored(after, offsets, names)
  {
    forall i | 0 <= i < |names| ensures CString(after, offsets[i], names[i]) {
      CStringUnchanged(before, after, offsets[i], names[i]);
    }
  }

  lemma StoredAppend(buffer: seq<char>, offsets: seq<nat>, names: seq<string>, at: nat, name: string)
    requires Stored(buffer, offsets, names) && CString(buffer, at, name) && name != ""
    ensures Stored(buffer, offsets + [at], names + [name])
  {
  }

  class PairingFilter {
    const enabled: bool
    const storage: array<char>
    const entries: array<nat>   // offsets into `storage`
    var count: nat
    ghost var names: seq<string>

    ghost predicate Valid()
      reads this, storage, entries
    {
      && storage.Length == RAW_MAX && entries.Length == MAX_ENTRIES
      && count == |names| <= MAX_ENTRIES
      && AllShort(names)
      && Stored(storage[..], entries[..count], names)
    }

    constructor (enabled: bool)
      ensures Valid() && fresh(storage) && fresh(entries) && this.enabled == enabled && names == []
    {
      this.enabled := enabled;
      storage := new char[RAW_MAX](_ => NUL);
      entries := new nat[MAX_ENTRIES](_ => 0);
      count, names := 0, [];
    }

    method SkipSpaces(start: nat, ghost text: string) returns (at: nat)
      requires CString(storage[..], start, text)
      ensures start <= at <= start + |text|
      ensures CString(storage[..], at, TrimLeft(text)) && at + |TrimLeft(text)| == start + |text|
    {
      at := start;
      ghost var left := text;
      while storage[at] != NUL && IsSpace(storage[at])
        invariant start <= at && at + |left| == start + |text|
        invariant CString(storage[..], at, left) && TrimLeft(left) == TrimLeft(text)
        decreases |left|
      {
        assert left != "";
        CStringTail(storage[..], at, left);
        at := at + 1;
        left := left[1..];
      }
      if left != "" {
        CStringTail(storage[..], at, left);
      }
    }

    method StrLen(at: nat, ghost text: string) returns (len: nat)
      requires CString(storage[..], at, text)
      ensures len == |text|
    {
      len := 0;
      while storage[at + len] != NUL
        invariant len <= |text|
        decreases |text| - len
      {
        len := len + 1;
      }
    }

    /** trim_in_place: advances over leading blanks and cuts trailing ones with a NUL. */
    method TrimInPlace(start: nat, ghost text: string) returns (at: nat)
      requires CString(storage[..], start, text)
      modifies storage
      ensures start <= at && at + |Trim(text)| <= start + |text|
      ensures CString(storage[..], at, Trim(text)) && storage[start + |text|] == NUL
      ensures forall i :: 0 <= i < storage.Length && !(start <= i <= start + |text|) ==> storage[i] == old(storage[i])
    {
      at := SkipSpaces(start, text);
      ghost var left := TrimLeft(text);
      var len := StrLen(at, left);
      var end := at + len;
      ghost var kept := left;
      while end > at && IsSpace(storage[end - 1])
        invariant end == at + |kept| && |kept| <= |left|
        invariant forall j :: at <= j < end ==> storage[j] == kept[j - at] && storage[j] != NUL
        invariant TrimRight(kept) == TrimRight(left)
      {
        kept := kept[..|kept| - 1];
        end := end - 1;
      }
      assert kept == TrimRight(left);
      storage[end] := NUL;
    }

    /** The strchr of the tokenizer loop, or the end of the string. */
    method FindComma(cursor: nat, ghost unread: string) returns (comma: nat)
      requires CString(storage[..], cursor, unread)
      ensures comma == cursor + FirstComma(unread)
    {
      comma := cursor;
      ghost var left := unread;
      while storage[comma] != NUL && storage[comma] != ','
        invariant cursor <= comma && comma + |left| == cursor + |unread|
        invariant CString(storage[..], comma, left)
        invariant cursor + FirstComma(unread) == comma + FirstComma(left)
        decreases |left|
      {
        CStringTail(storage[..], comma, left);
        comma := comma + 1;
        left := left[1..];
      }
      if left != "" {
        CStringTail(storage[..], comma, left);
      }
    }

    /** Ends the field at the next comma, if there is one, and steps past it. */
    method CutField(cursor: nat, ghost unread: string) returns (next: nat)
      requires CString(storage[..], cursor, unread) && unread != ""
      modifies storage
      ensures cursor + FirstComma(unread) <= next && next + |AfterComma(unread)| == cursor + |unread|
      ensures CString(storage[..], cursor, unread[..FirstComma(unread)])
      ensures CString(storage[..], next, AfterComma(unread))
      ensures cursor + FirstComma(unread) < next || AfterComma(unread) == ""
      ensures forall i :: 0 <= i < cursor ==> storage[i] == old(storage[i])
    {
      var comma := FindComma(cursor, unread);
      ghost var before := storage[..];
      ghost var k := FirstComma(unread);
      CutLeaves(before, cursor, unread, k);
      assert AfterComma(unread) == if k < |unread| then unread[k + 1..] else "";
      next := comma;
      if storage[comma] != NUL {
        storage[comma] := NUL;
        next := comma + 1;
      }
      assert storage[..] == before[comma := NUL];
    }

    /** The head of one tokenizer round: cut the next field, step past it, trim it in place. */
    method CutToken(cursor: nat, ghost unread: string) returns (token: nat, next: nat)
      requires CString(storage[..], cursor, unread) && unread != ""
      modifies storage
      ensures next + |AfterComma(unread)| == cursor + |unread|
      ensures CString(storage[..], next, AfterComma(unread))
      ensures CString(storage[..], token, Trim(unread[..FirstComma(unread)]))
      ensures token + |Trim(unread[..FirstComma(unread)])| < next || AfterComma(unread) == ""
      ensures forall i :: 0 <= i < cursor ==> storage[i] == old(storage[i])
    {
      next := CutField(cursor, unread);
      ghost var cut := storage[..];
      token := TrimInPlace(cursor, unread[..FirstComma(unread)]);
      if cursor + FirstComma(unread) < next {
        CStringUnchanged(cut, storage[..], next, AfterComma(unread));
      }
    }

    /** The memset and memcpy of pairing_filter_init. */
    method LoadStorage(configured: string)
      requires storage.Length == RAW_MAX && |configured| < RAW_MAX && NulFree(configured)
      modifies storage
      ensures CString(storage[..], 0, configured)
    {
      for i := 0 to RAW_MAX {
        storage[i] := NUL;
      }
      for i := 0 to |configured|
        invariant forall k :: 0 <= k < i ==> storage[k] == configured[k]
      {
        storage[i] := configured[i];
      }
      storage[|configured|] := NUL;
    }

    /** One round of the tokenizer loop. */
    method TokenizerRound(cursor: nat, ghost unread: string) returns (next: nat, status: Status)
      requires Valid() && count < MAX_ENTRIES
      requires CString(storage[..], cursor, unread) && unread != "" && Before(entries[..count], names, cursor)
      modifies this, storage, entries
      ensures Valid()
      ensures next + |AfterComma(unread)| == cursor + |unread| && CString(storage[..], next, AfterComma(unread))
      ensures Before(entries[..count], names, next) || AfterComma(unread) == ""
      ensures status == OK ==> Parse(unread, old(names)) == Parse(AfterComma(unread), names)
      ensures status != OK ==> Parse(unread, old(names)) == (names, status)
    {
      ghost var before := storage[..];
      ghost var text := Trim(unread[..FirstComma(unread)]);
      var token;
      token, next := CutToken(cursor, unread);
      StoredUnchanged(before, storage[..], entries[..count], names, cursor);
      if storage[token] == NUL {
        return next, OK;
      }
      var len := StrLen(token, text);
      if len >= NAME_MAX {
        return next, SIZE_MISMATCH;
      }
      StoredAppend(storage[..], entries[..count], names, token, text);
      entries[count] := token;
      count := count + 1;
      names := names + [text];
      assert entries[..count] == entries[..count - 1] + [token];
      status := OK;
    }

    /** pairing_filter_init: what is stored is exactly what the configured string means. */
    method Init(configured: string) returns (status: Status)
      requires Valid() && NulFree(configured)
      modifies this, storage, entries
      ensures Valid()
      ensures !enabled || configured == "" ==> status == OK && names == []
      ensures enabled && |configured| >= 192 ==> status == SIZE_MISMATCH && names == []
      ensures enabled && |configured| < 192 ==>
                && names == ShortPrefix(FirstTokens(configured))
                && status == if AllShort(FirstTokens(configured)) then OK else SIZE_MISMATCH
    {
      count, names := 0, [];
      if !enabled || configured == "" {
        return OK;
      }
      if |configured| >= RAW_MAX {
        return SIZE_MISMATCH;
      }
      LoadStorage(configured);
      status := Tokenize(configured);
      ParseIsFirstTokens(configured);
    }

    /** The tokenizer loop over the loaded string. */
    method Tokenize(ghost configured: string) returns (status: Status)
      requires Valid() && CString(storage[..], 0, configured) && names == []
      modifies this, storage, entries
      ensures Valid() && (names, status) == Parse(configured, [])
    {
      var cursor: nat := 0;
      ghost var unread := configured;
      while storage[cursor] != NUL && count < MAX_ENTRIES
        invariant Valid() && CString(storage[..], cursor, unread)
        invariant Parse(configured, []) == Parse(unread, names)
        invariant Before(entries[..count], names, cursor) || unread == ""
        decreases |unread|
      {
        cursor, status := TokenizerRound(cursor, unread);
        unread := AfterComma(unread);
        if status != OK {
          return;
        }
      }
      return OK;
    }

    /** equals_case_insensitive, walking both strings to their terminators. */
    method EqualsCaseInsensitive(left: string, at: nat, ghost right: string) returns (equal: bool)
      requires NulFree(left) && CString(storage[..], at, right)
      ensures equal <==> Lower(left) == Lower(right)
    {
      var i := 0;
      while i < |left| && storage[at + i] != NUL
        invariant i <= |left| && i <= |right|
        invariant forall k :: 0 <= k < i ==> ToLower(left[k]) == ToLower(right[k])
      {
        if ToLower(left[i]) != ToLower(storage[at + i]) {
          assert Lower(left)[i] != Lower(right)[i];
          return false;
        }
        i := i + 1;
      }
      equal := i == |left| && storage[at + i] == NUL;
    }

    method NameAllowed(name: Option<string>) returns (allowed: bool)
      requires Valid() && (name.Some? ==> NulFree(name.value))
      ensures allowed <==> Allowed(enabled, names, name)
    {
      if !enabled || count == 0 {
        return true;
      }
      if name.None? || name.value == "" {
        return false;
      }
      for i := 0 to count
        invariant forall k :: 0 <= k < i ==> Lower(name.value) != Lower(names[k])
      {
        var equal := EqualsCaseInsensitive(name.value, entries[i], names[i]);
        if equal {
          return true;
        }
      }
      return false;
    }
  }
}
