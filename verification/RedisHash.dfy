/**
 Storing a struct as a hash of texts and reading it back into a zero struct: the field-by-field printer
 and parser of the Redis cache, with decimal numbers and booleans written out.
*/
module RedisHash {
  import opened Bytes
  import opened Options

  // ---- numbers and booleans as text

  function Digit(d: nat): char
    requires d < 10
  {
    '0' + d as char
  }

  function Decimal(n: nat): string {
    if n < 10 then [Digit(n)] else Decimal(n / 10) + [Digit(n % 10)]
  }

  function FormatInt(i: int): string {
    if i < 0 then "-" + Decimal(-i) else Decimal(i)
  }

  predicate IsDigit(c: char) {
    '0' <= c <= '9'
  }

  function DigitsValue(s: string): Option<nat> {
    if s == "" then Some(0)
    else
      var front := DigitsValue(s[..|s| - 1]);
      if front.Some? && IsDigit(s[|s| - 1]) then Some(10 * front.value + (s[|s| - 1] - '0') as nat) else None
  }

  /** Base 10, 64 bits: an optional sign, at least one digit, no overflow. */
  function ParseInt(s: string): Option<int> {
    var signed := s != "" && (s[0] == '-' || s[0] == '+');
    var digits := if signed then s[1..] else s;
    var magnitude := DigitsValue(digits);
    if digits == "" || magnitude.None? then None
    else
      var i: int := if signed && s[0] == '-' then 0 - magnitude.value else magnitude.value;
      if IsInt64(i) then Some(i) else None
  }

  lemma {:induction false} DecimalRoundTrip(n: nat)
    ensures Decimal(n) != "" && IsDigit(Decimal(n)[0]) && DigitsValue(Decimal(n)) == Some(n)
  {
    if n < 10 {
      assert DigitsValue("") == Some(0);
      assert Decimal(n)[..0] == "";
    } else {
      DecimalRoundTrip(n / 10);
      assert Decimal(n)[..|Decimal(n)| - 1] == Decimal(n / 10);
    }
  }

  /** Every 64-bit number reads back, and nothing else does. */
  lemma IntRoundTrip(i: int)
    ensures FormatInt(i) != ""
    ensures ParseInt(FormatInt(i)) == if IsInt64(i) then Some(i) else None
  {
    DecimalRoundTrip(if i < 0 then -i else i);
    if i < 0 {
      assert ("-" + Decimal(-i))[1..] == Decimal(-i);
    }
  }

  ghost predicate AllDigits(s: string) {
    s != "" && forall i :: 0 <= i < |s| ==> IsDigit(s[i])
  }

  lemma {:induction false} DigitsValueIff(s: string)
    ensures DigitsValue(s).Some? <==> forall i :: 0 <= i < |s| ==> IsDigit(s[i])
  {
    if s != "" {
      DigitsValueIff(s[..|s| - 1]);
    }
  }

  /** A text parses as a number only if it is an optional sign and digits; a sign or leading zeros do not
      change the value. */
  lemma ParseIntSyntax(s: string)
    ensures ParseInt(s).Some? ==> AllDigits(s) || (s != "" && (s[0] == '-' || s[0] == '+') && AllDigits(s[1..]))
    ensures AllDigits(s) ==> ParseInt("+" + s) == ParseInt(s)
    ensures AllDigits(s) && ParseInt(s).Some? ==> ParseInt("-" + s) == Some(-ParseInt(s).value)
    ensures AllDigits(s) ==> ParseInt("0" + s) == ParseInt(s)
  {
    DigitsValueIff(s);
    if s != "" {
      DigitsValueIff(s[1..]);
    }
    assert ("+" + s)[1..] == s && ("-" + s)[1..] == s;
    LeadingZero(s);
  }

  lemma {:induction false} LeadingZero(s: string)
    ensures DigitsValue("0" + s) == DigitsValue(s)
  {
    if s == "" {
      assert DigitsValue(("0" + s)[..0]) == Some(0);
    } else {
      LeadingZero(s[..|s| - 1]);
      assert ("0" + s)[..|s|] == "0" + s[..|s| - 1];
    }
  }

  function FormatBool(b: bool): string {
    if b then "true" else "false"
  }

  function ParseBool(s: string): Option<bool> {
    if s == "1" || s == "t" || s == "T" || s == "true" || s == "TRUE" || s == "True" then Some(true)
    else if s == "0" || s == "f" || s == "F" || s == "false" || s == "FALSE" || s == "False" then Some(false)
    else None
  }

  lemma BoolRoundTrip(b: bool)
    ensures FormatBool(b) != "" && ParseBool(FormatBool(b)) == Some(b)
  {
    assert "false"[0] == 'f' && "true"[0] == 't';
    assert |"false"| == 5;
  }

  const TRUE_WORDS: seq<string> := ["1", "t", "T", "true", "TRUE", "True"]

  const FALSE_WORDS: seq<string> := ["0", "f", "F", "false", "FALSE", "False"]

  /** Exactly these twelve words are flags. */
  lemma ParseBoolIff(s: string)
    ensures ParseBool(s) == Some(true) <==> s in TRUE_WORDS
    ensures ParseBool(s) == Some(false) <==> s in FALSE_WORDS
  {
    assert s in TRUE_WORDS <==> s == "1" || s == "t" || s == "T" || s == "true" || s == "TRUE" || s == "True";
    assert s in FALSE_WORDS <==> s == "0" || s == "f" || s == "F" || s == "false" || s == "FALSE" || s == "False";
  }

  // ---- fields

  datatype Kind = Text | Number | Flag | Deleted | Struct | Other

  datatype Scalar = S(text: string) | N(n: int) | F(b: bool) | D(stamp: string) | R(shown: string)

  /** A struct field; `value` is None exactly for a nil pointer. */
  datatype Slot = Slot(name: string, pointer: bool, kind: Kind, value: Option<Scalar>)

  predicate HasKind(v: Scalar, kind: Kind) {
    match kind
    case Text => v.S?
    case Number => v.N? && IsInt64(v.n)
    case Flag => v.F?
    case Deleted => v.D?
    case Struct => v.R?
    case Other => v.R?
  }

  predicate Typed(s: Slot) {
    && (s.value.None? ==> s.pointer)
    && (s.value.Some? ==> HasKind(s.value.value, s.kind))
    && (s.kind.Deleted? ==> !s.pointer)
  }

  /** Field names of a struct are distinct. */
  ghost predicate TypedStruct(slots: seq<Slot>) {
    && (forall i :: 0 <= i < |slots| ==> Typed(slots[i]))
    && (forall i, j :: 0 <= i < j < |slots| ==> slots[i].name != slots[j].name)
  }

  const ZERO_STRUCT := R("{}")

  function ZeroScalar(kind: Kind): Scalar {
    match kind
    case Text => S("")
    case Number => N(0)
    case Flag => F(false)
    case Deleted => D("")
    case Struct => ZERO_STRUCT
    case Other => ZERO_STRUCT
  }

  function Zero(s: Slot): Slot {
    Slot(s.name, s.pointer, s.kind, if s.pointer then None else Some(ZeroScalar(s.kind)))
  }

  function Shown(v: Scalar): string {
    match v
    case S(text) => text
    case N(n) => FormatInt(n)
    case F(b) => FormatBool(b)
    case D(stamp) => stamp
    case R(shown) => shown
  }

  function Printed(s: Slot): string {
    if s.value.None? then "" else Shown(s.value.value)
  }

  type Hash = map<string, string>

  /** The value a text is parsed to; None is an error. Times are parsed by a parameter. */
  function ParseScalar(kind: Kind, text: string, time: string -> Option<string>): Option<Scalar> {
    match kind
    case Text => Some(S(text))
    case Number => if ParseInt(text).Some? then Some(N(ParseInt(text).value)) else None
    case Flag => if ParseBool(text).Some? then Some(F(ParseBool(text).value)) else None
    case Deleted =>
      if text == "" then Some(D("")) else if time(text).Some? then Some(D(time(text).value)) else None
    case Struct => Some(ZERO_STRUCT)
    case Other => None
  }

  /** One field of the zero struct after reading; None is an error. */
  function ReadSlot(s: Slot, h: Hash, time: string -> Option<string>): Option<Slot> {
    if s.name !in h || (s.pointer && h[s.name] == "") then Some(s)
    else
      var v := ParseScalar(s.kind, h[s.name], time);
      if v.None? then None else Some(Slot(s.name, s.pointer, s.kind, v))
  }

  // ---- the two loops

  /** The texts of all fields except the deletion time. */
  ghost predicate Prints(slots: seq<Slot>, n: nat, h: Hash)
    requires n <= |slots|
  {
    && (forall i :: 0 <= i < n && !slots[i].kind.Deleted? ==> slots[i].name in h && h[slots[i].name] == Printed(slots[i]))
    && (forall name :: name in h ==> exists i :: 0 <= i < n && !slots[i].kind.Deleted? && slots[i].name == name)
  }

  method PrintFields(slots: seq<Slot>) returns (data: Hash)
    requires TypedStruct(slots)
    ensures Prints(slots, |slots|, data)
  {
    data := map[];
    for i := 0 to |slots|
      invariant Prints(slots, i, data)
    {
      if slots[i].kind.Deleted? {
        continue;
      }
      var text := "";
      if slots[i].value.Some? {
        text := if slots[i].value.value.F? then FormatBool(slots[i].value.value.b) else Shown(slots[i].value.value);
      }
      data := data[slots[i].name := text];
    }
  }

  ghost predicate Reads(slots: seq<Slot>, n: nat, h: Hash, time: string -> Option<string>, out: seq<Slot>)
    requires n <= |slots|
  {
    |out| == n && forall i :: 0 <= i < n ==> ReadSlot(slots[i], h, time) == Some(out[i])
  }

  method ReadFields(slots: seq<Slot>, h: Hash, time: string -> Option<string>) returns (out: Option<seq<Slot>>)
    ensures out.Some? ==> Reads(slots, |slots|, h, time, out.value)
    ensures out.None? ==> exists i :: 0 <= i < |slots| && ReadSlot(slots[i], h, time) == None
  {
    var done: seq<Slot> := [];
    for i := 0 to |slots|
      invariant Reads(slots, i, h, time, done)
    {
      var slot := slots[i];
      if slot.name in h {
        var text := h[slot.name];
        if !(slot.pointer && text == "") {
          var v := ParseScalar(slot.kind, text, time);
          if v.None? {
            return None;
          }
          slot := Slot(slot.name, slot.pointer, slot.kind, v);
        }
      }
      done := done + [slot];
    }
    return Some(done);
  }

  class Redis {
    var store: map<string, Hash>

    constructor ()
      ensures store == map[]
    {
      store := map[];
    }

    /** Writes the fields into the hash at `key`; other fields already there stay. An empty set of
        fields is refused. */
    method HSetObj(key: string, slots: seq<Slot>) returns (ok: bool, ghost data: Hash)
      requires TypedStruct(slots)
      modifies this
      ensures ok <==> exists i :: 0 <= i < |slots| && !slots[i].kind.Deleted?
      ensures !ok ==> store == old(store)
      ensures Prints(slots, |slots|, data)
      ensures ok ==> data != map[]
      ensures ok ==> store == old(store)[key := (if key in old(store) then old(store)[key] else map[]) + data]
    {
      var printed := PrintFields(slots);
      data := printed;
      if printed == map[] {
        return false, data;
      }
      var name :| name in printed;
      store := store[key := (if key in store then store[key] else map[]) + printed];
      return true, data;
    }

    method HGetObj(key: string, slots: seq<Slot>, time: string -> Option<string>) returns (out: Option<seq<Slot>>)
      ensures key !in store || store[key] == map[] ==> out == None
      ensures out.Some? ==> key in store && Reads(slots, |slots|, store[key], time, out.value)
      ensures out.None? && key in store && store[key] != map[] ==>
                exists i :: 0 <= i < |slots| && ReadSlot(slots[i], store[key], time) == None
    {
      if key !in store || store[key] == map[] {
        return None;
      }
      out := ReadFields(slots, store[key], time);
    }
  }

  // ---- the round trip

  /** The deletion time parsed from what the hash already held under the field's name; the printer never
      writes one. */
  function StaleTime(s: Slot, stale: Hash, time: string -> Option<string>): Option<Scalar> {
    if s.name !in stale || stale[s.name] == "" then Some(D(""))
    else if time(stale[s.name]).Some? then Some(D(time(stale[s.name]).value))
    else None
  }

  /** The parser knows the field's type, or never looks at it. */
  predicate Readable(s: Slot, stale: Hash, time: string -> Option<string>) {
    match s.kind
    case Deleted => StaleTime(s, stale, time).Some?
    case Other => s.pointer && Printed(s) == ""
    case _ => true
  }

  /** What comes back: nil for a pointer printed as the empty text, no deletion time but a stale one, zero
      structs, and otherwise the original. */
  function Expected(s: Slot, stale: Hash, time: string -> Option<string>): Slot {
    if s.kind.Deleted? then Slot(s.name, s.pointer, s.kind, StaleTime(s, stale, time))
    else if s.pointer && Printed(s) == "" then Slot(s.name, true, s.kind, None)
    else if s.kind.Struct? then Slot(s.name, s.pointer, s.kind, Some(ZERO_STRUCT))
    else s
  }

  lemma SlotRoundTrip(s: Slot, stale: Hash, h: Hash, time: string -> Option<string>)
    requires Typed(s)
    requires if s.kind.Deleted? then SameAt(s.name, stale, h) else s.name in h && h[s.name] == Printed(s)
    ensures ReadSlot(Zero(s), h, time) == if Readable(s, stale, time) then Some(Expected(s, stale, time)) else None
  {
    if s.value.Some? {
      match s.value.value {
        case N(n) => IntRoundTrip(n);
        case F(b) => BoolRoundTrip(b);
        case _ =>
      }
    }
  }

  predicate SameAt(name: string, stale: Hash, h: Hash) {
    (name in stale <==> name in h) && (name in h ==> h[name] == stale[name])
  }

  function Zeros(slots: seq<Slot>): seq<Slot> {
    seq(|slots|, i requires 0 <= i < |slots| => Zero(slots[i]))
  }

  function Back(slots: seq<Slot>, stale: Hash, time: string -> Option<string>): seq<Slot> {
    seq(|slots|, i requires 0 <= i < |slots| => Expected(slots[i], stale, time))
  }

  ghost predicate AllReadable(slots: seq<Slot>, stale: Hash, time: string -> Option<string>) {
    forall i :: 0 <= i < |slots| ==> Readable(slots[i], stale, time)
  }

  lemma DeletedNotPrinted(slots: seq<Slot>, data: Hash, i: nat)
    requires TypedStruct(slots) && Prints(slots, |slots|, data) && i < |slots| && slots[i].kind.Deleted?
    ensures slots[i].name !in data
  {
    assert forall j :: 0 <= j < |slots| && slots[j].name == slots[i].name ==> j == i;
  }

  /** Every field, read from what was written over a stale hash. */
  lemma FieldRoundTrip(slots: seq<Slot>, stale: Hash, data: Hash, time: string -> Option<string>, i: nat)
    requires TypedStruct(slots) && Prints(slots, |slots|, data) && i < |slots|
    ensures ReadSlot(Zeros(slots)[i], stale + data, time) ==
            if Readable(slots[i], stale, time) then Some(Expected(slots[i], stale, time)) else None
  {
    if slots[i].kind.Deleted? {
      DeletedNotPrinted(slots, data, i);
    }
    SlotRoundTrip(slots[i], stale, stale + data, time);
  }

  /** Reading into a zero struct what was written, over whatever the hash held before: it succeeds exactly when
      every field is readable, and then yields exactly the expected struct. */
  lemma RoundTripIff(slots: seq<Slot>, stale: Hash, data: Hash, time: string -> Option<string>)
    requires TypedStruct(slots) && Prints(slots, |slots|, data)
    ensures (exists i :: 0 <= i < |slots| && ReadSlot(Zeros(slots)[i], stale + data, time) == None) <==>
            !AllReadable(slots, stale, time)
    ensures forall out :: Reads(Zeros(slots), |slots|, stale + data, time, out) <==>
              AllReadable(slots, stale, time) && out == Back(slots, stale, time)
  {
    forall i | 0 <= i < |slots|
      ensures ReadSlot(Zeros(slots)[i], stale + data, time) ==
              if Readable(slots[i], stale, time) then Some(Expected(slots[i], stale, time)) else None
    {
      FieldRoundTrip(slots, stale, data, time, i);
    }
    forall out | Reads(Zeros(slots), |slots|, stale + data, time, out)
      ensures AllReadable(slots, stale, time) && out == Back(slots, stale, time)
    {
      assert forall i :: 0 <= i < |slots| ==> ReadSlot(Zeros(slots)[i], stale + data, time) == Some(out[i]);
    }
  }

  /** Over a hash without a text for it, a field of text, number, flag or deletion-time kind comes back as it
      was exactly unless it points to the empty text or holds a deletion time. */
  lemma OriginalIff(s: Slot, stale: Hash, time: string -> Option<string>)
    requires Typed(s) && !s.kind.Struct? && !s.kind.Other? && s.name !in stale
    ensures Readable(s, stale, time)
    ensures Expected(s, stale, time) == s <==>
            !(s.pointer && s.value == Some(S(""))) && !(s.kind.Deleted? && s.value != Some(D("")))
  {
    if s.value.Some? {
      match s.value.value {
        case N(n) => IntRoundTrip(n);
        case F(b) => BoolRoundTrip(b);
        case _ =>
      }
    }
  }

  /** Write, then read into a zero struct of the same type. */
  method CacheThenLoad(redis: Redis, key: string, slots: seq<Slot>, time: string -> Option<string>)
    returns (stored: bool, out: Option<seq<Slot>>)
    requires TypedStruct(slots)
    modifies redis
    ensures stored <==> exists i :: 0 <= i < |slots| && !slots[i].kind.Deleted?
    ensures var stale := if key in old(redis.store) then old(redis.store)[key] else map[];
            && (stored ==> (out.Some? <==> AllReadable(slots, stale, time)))
            && (stored && out.Some? ==> out.value == Back(slots, stale, time))
  {
    ghost var stale := if key in redis.store then redis.store[key] else map[];
    ghost var data: Hash;
    stored, data := redis.HSetObj(key, slots);
    out := None;
    if stored {
      ghost var name :| name in data;
      assert name in stale + data && redis.store[key] == stale + data;
      RoundTripIff(slots, stale, data, time);
      out := redis.HGetObj(key, Zeros(slots), time);
    }
  }
}
