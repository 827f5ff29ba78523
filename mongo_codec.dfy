/** The JSON encoding the R worker client uses to exchange values with R's
    plumber and jsonlite packages: datetimes travel in the "mongo" form
    `{"$date": <epoch milliseconds>}`, decoded objects of that form become
    datetimes again, a decoded one-element array holding a datetime is unboxed,
    and `_SerializeValueToJSON` wraps values that jsonlite would otherwise
    mangle. JSON is modelled as a tree; writing and scanning its text is not. */
module MongoCodec {
  import opened Wrappers
  import opened PyDict

  /** The Python values that cross the JSON boundary. A `PDateTime` holds its
      wall-clock time in microseconds since the epoch and, when it is aware,
      the UTC offset of its zone in microseconds (`None` for a naive datetime).
      `PTable` is an opaque pyarrow table. */
  datatype PyVal =
    | PNone
    | PBool(b: bool)
    | PInt(i: int)
    | PFloat(x: real)
    | PStr(s: string)
    | PDateTime(wall: int, offset: Option<int>)
    | PList(items: seq<PyVal>)
    | PTuple(items: seq<PyVal>)
    | PDict(entries: Dict<string, PyVal>)
    | PTable(id: nat)

  datatype Json =
    | JNull
    | JBool(b: bool)
    | JInt(i: int)
    | JFloat(x: real)
    | JStr(s: string)
    | JArr(items: seq<Json>)
    | JObj(members: seq<(string, Json)>)

  const DateKey: string := "$date"
  const NotSerializable: string := "TypeError: Object of type Table is not JSON serializable"

  /** `int(us / 1000)`: microseconds to whole milliseconds, truncated toward zero. */
  function MillisOf(us: int): (ms: int)
    ensures 0 <= us ==> 0 <= us - ms * 1000 < 1000
    ensures us < 0 ==> 0 <= ms * 1000 - us < 1000
  {
    if us >= 0 then us / 1000 else -((-us) / 1000)
  }

  /** Rounding to the nearest integer, ties to even, as `fromtimestamp` rounds to microseconds. */
  function RoundHalfEven(r: real): (n: int)
    ensures n as real - 0.5 <= r <= n as real + 0.5
    ensures (r == n as real - 0.5 || r == n as real + 0.5) ==> n % 2 == 0
  {
    var f := r.Floor;
    var frac := r - f as real;
    if frac < 0.5 then f
    else if frac > 0.5 then f + 1
    else if f % 2 == 0 then f
    else f + 1
  }

  /** The zone offset a datetime is read in: its own, or the default one when it is naive. */
  function OffsetOr(offset: Option<int>, defaultOffset: int): int {
    if offset.Some? then offset.value else defaultOffset
  }

  /** The instant of a datetime, in microseconds since the epoch in UTC. */
  function Instant(v: PyVal, defaultOffset: int): int
    requires v.PDateTime?
  {
    v.wall - OffsetOr(v.offset, defaultOffset)
  }

  /** `_MongoDateTimeEncoder.default` on a datetime: a naive datetime is first
      given the default zone; the instant becomes `{"$date": ms}` with `ms` its
      integer epoch milliseconds. */
  function EncodeDateTime(wall: int, offset: Option<int>, defaultOffset: int): (j: Json)
    ensures j.JObj? && |j.members| == 1 && j.members[0].0 == DateKey && j.members[0].1.JInt?
    ensures var us := wall - OffsetOr(offset, defaultOffset);
            var ms := j.members[0].1.i;
            (0 <= us ==> 0 <= us - ms * 1000 < 1000) && (us < 0 ==> 0 <= ms * 1000 - us < 1000)
  {
    JObj([(DateKey, JInt(MillisOf(wall - OffsetOr(offset, defaultOffset))))])
  }

  /** `json.dumps(v, cls=_MongoDateTimeEncoder)`: tuples become arrays, dict
      members keep their order, and a table raises at the first one met. */
  function Encode(v: PyVal, defaultOffset: int): (r: Result<Json, string>)
    ensures r.Err? ==> r.error == NotSerializable
    ensures r.Ok? && v.PDateTime? ==> r.value == EncodeDateTime(v.wall, v.offset, defaultOffset)
    ensures r.Ok? && (v.PList? || v.PTuple?) ==> r.value.JArr? && |r.value.items| == |v.items|
    ensures r.Ok? && v.PDict? ==>
      r.value.JObj? && |r.value.members| == |v.entries| && forall i :: 0 <= i < |v.entries| ==> r.value.members[i].0 == v.entries[i].0
    decreases v, 1
  {
    match v
    case PNone => Ok(JNull)
    case PBool(b) => Ok(JBool(b))
    case PInt(i) => Ok(JInt(i))
    case PFloat(x) => Ok(JFloat(x))
    case PStr(s) => Ok(JStr(s))
    case PDateTime(w, o) => Ok(EncodeDateTime(w, o, defaultOffset))
    case PList(items) =>
      var r := EncodeItems(items, defaultOffset);
      if r.Ok? then Ok(JArr(r.value)) else Err(r.error)
    case PTuple(items) =>
      var r := EncodeItems(items, defaultOffset);
      if r.Ok? then Ok(JArr(r.value)) else Err(r.error)
    case PDict(es) =>
      var r := EncodeEntries(es, defaultOffset);
      if r.Ok? then Ok(JObj(r.value)) else Err(r.error)
    case PTable(_) => Err(NotSerializable)
  }

  function EncodeItems(items: seq<PyVal>, defaultOffset: int): (r: Result<seq<Json>, string>)
    ensures r.Ok? ==> |r.value| == |items|
    ensures r.Err? ==> r.error == NotSerializable
    decreases items, 0
  {
    if items == [] then Ok([])
    else
      var h := Encode(items[0], defaultOffset);
      if h.Err? then Err(h.error)
      else
        var t := EncodeItems(items[1..], defaultOffset);
        if t.Err? then Err(t.error) else Ok([h.value] + t.value)
  }

  function EncodeEntries(es: Dict<string, PyVal>, defaultOffset: int): (r: Result<seq<(string, Json)>, string>)
    ensures r.Ok? ==> |r.value| == |es| && forall i :: 0 <= i < |es| ==> r.value[i].0 == es[i].0
    ensures r.Err? ==> r.error == NotSerializable
    decreases es, 0
  {
    if es == [] then Ok([])
    else
      var e := es[0];
      assert e.1 < e;
      var h := Encode(e.1, defaultOffset);
      if h.Err? then Err(h.error)
      else
        var t := EncodeEntries(es[1..], defaultOffset);
        if t.Err? then Err(t.error) else Ok([(e.0, h.value)] + t.value)
  }

  /** A value the `object_hook` may read as epoch milliseconds: `isinstance(x, (int, float))`,
      which a `bool` also passes. */
  predicate IsNumber(v: PyVal) {
    v.PInt? || v.PFloat? || v.PBool?
  }

  /** `datetime.fromtimestamp(ms / 1000., tz=default)`. */
  function DateFromMillis(ms: PyVal, defaultOffset: int): (r: PyVal)
    requires IsNumber(ms)
    ensures r.PDateTime? && r.offset == Some(defaultOffset)
  {
    var us := match ms
      case PInt(i) => i * 1000
      case PBool(b) => if b then 1000 else 0
      case PFloat(x) => RoundHalfEven(x * 1000.0);
    PDateTime(us + defaultOffset, Some(defaultOffset))
  }

  /** `_DecodeMongoDates`, the decoder's `object_hook`. */
  function DecodeMongoDates(o: Dict<string, PyVal>, defaultOffset: int): (r: PyVal)
    ensures r.PDateTime? <==> |o| == 1 && o[0].0 == DateKey && IsNumber(o[0].1)
    ensures r.PDateTime? ==> r.offset == Some(defaultOffset)
    ensures r.PDateTime? && o[0].1.PInt? ==> Instant(r, defaultOffset) == o[0].1.i * 1000
    ensures !r.PDateTime? ==> r == PDict(o)
  {
    if |o| == 1 && o[0].0 == DateKey && IsNumber(o[0].1) then DateFromMillis(o[0].1, defaultOffset)
    else PDict(o)
  }

  /** `_UnboxMongoDates`, the decoder's array hook. */
  function UnboxMongoDates(vs: seq<PyVal>): (r: PyVal)
    ensures r.PDateTime? <==> |vs| == 1 && vs[0].PDateTime?
    ensures r.PDateTime? ==> r == vs[0]
    ensures !r.PDateTime? ==> r == PList(vs)
  {
    if |vs| == 1 && vs[0].PDateTime? then vs[0] else PList(vs)
  }

  /** `json.loads(text, cls=_MongoDateTimeDecoder)` on the parsed tree: children
      first, then the hooks; an object's duplicate keys keep their last value. */
  function Decode(j: Json, defaultOffset: int): (r: PyVal)
    ensures !r.PTuple? && !r.PTable?
    ensures r.PDateTime? ==> r.offset == Some(defaultOffset) && (j.JObj? || j.JArr?)
    decreases j, 1
  {
    match j
    case JNull => PNone
    case JBool(b) => PBool(b)
    case JInt(i) => PInt(i)
    case JFloat(x) => PFloat(x)
    case JStr(s) => PStr(s)
    case JArr(items) =>
      var vs := DecodeItems(items, defaultOffset);
      assert |vs| == 1 ==> vs[0] == Decode(items[0], defaultOffset);
      UnboxMongoDates(vs)
    case JObj(ms) => DecodeMongoDates(FromPairs(DecodeMembers(ms, defaultOffset)), defaultOffset)
  }

  function DecodeItems(items: seq<Json>, defaultOffset: int): (r: seq<PyVal>)
    ensures |r| == |items| && forall i :: 0 <= i < |items| ==> r[i] == Decode(items[i], defaultOffset)
    decreases items, 0
  {
    if items == [] then [] else [Decode(items[0], defaultOffset)] + DecodeItems(items[1..], defaultOffset)
  }

  function DecodeMembers(ms: seq<(string, Json)>, defaultOffset: int): (r: Dict<string, PyVal>)
    ensures |r| == |ms| && forall i :: 0 <= i < |ms| ==> r[i].0 == ms[i].0
    decreases ms, 0
  {
    if ms == [] then []
    else
      var m := ms[0];
      assert m.1 < m;
      [(m.0, Decode(m.1, defaultOffset))] + DecodeMembers(ms[1..], defaultOffset)
  }

  predicate IsJsonNumber(j: Json) {
    j.JInt? || j.JFloat? || j.JBool?
  }

  /** Only a JSON number or boolean decodes to something the hook reads as milliseconds. */
  lemma DecodeIsNumber(j: Json, defaultOffset: int)
    ensures IsNumber(Decode(j, defaultOffset)) <==> IsJsonNumber(j)
  {
  }

  /** A naive datetime is encoded as if it were in the default zone. */
  lemma EncodeNaiveUsesDefault(wall: int, defaultOffset: int)
    ensures Encode(PDateTime(wall, None), defaultOffset) == Encode(PDateTime(wall, Some(defaultOffset)), defaultOffset)
  {
  }

  /** A datetime sent and read back is the same instant truncated to the
      millisecond, now in the default zone; a millisecond-precision instant
      comes back exactly. */
  lemma DateTimeRoundTrip(wall: int, offset: Option<int>, defaultOffset: int)
    ensures var v := PDateTime(wall, offset);
            var r := Decode(EncodeDateTime(wall, offset, defaultOffset), defaultOffset);
            r.PDateTime? && r.offset == Some(defaultOffset)
            && -1000 < Instant(r, defaultOffset) - Instant(v, defaultOffset) < 1000
            && Instant(r, defaultOffset) % 1000 == 0
            && (Instant(v, defaultOffset) % 1000 == 0 ==> Instant(r, defaultOffset) == Instant(v, defaultOffset))
  {
    var j := EncodeDateTime(wall, offset, defaultOffset);
    var ms := j.members[0].1.i;
    assert DecodeMembers(j.members, defaultOffset) == [(DateKey, PInt(ms))];
    UpdateSingle([], DateKey, PInt(ms));
    var r := Decode(j, defaultOffset);
    assert r == PDateTime(ms * 1000 + defaultOffset, Some(defaultOffset));
  }

  /** A one-element list holding a datetime does not come back as a list: the
      decoder unboxes it to the datetime itself. */
  lemma SingletonDateTimeListUnboxed(wall: int, offset: Option<int>, defaultOffset: int)
    ensures Encode(PList([PDateTime(wall, offset)]), defaultOffset).Ok?
    ensures var j := Encode(PList([PDateTime(wall, offset)]), defaultOffset).value;
            Decode(j, defaultOffset) == Decode(EncodeDateTime(wall, offset, defaultOffset), defaultOffset)
            && Decode(j, defaultOffset).PDateTime?
  {
    var items := [PDateTime(wall, offset)];
    var j := EncodeDateTime(wall, offset, defaultOffset);
    assert items[1..] == [];
    assert [j] + [] == [j];
    assert EncodeItems(items, defaultOffset) == Ok([j]);
    var js := [EncodeDateTime(wall, offset, defaultOffset)];
    assert DecodeItems(js, defaultOffset) == [Decode(js[0], defaultOffset)];
    DateTimeRoundTrip(wall, offset, defaultOffset);
  }

  /** A decoded array is unboxed exactly when it has one element and that element decodes to a datetime. */
  lemma DecodeArray(items: seq<Json>, defaultOffset: int)
    ensures Decode(JArr(items), defaultOffset).PList? <==> !(|items| == 1 && Decode(items[0], defaultOffset).PDateTime?)
    ensures !Decode(JArr(items), defaultOffset).PList? ==> Decode(JArr(items), defaultOffset) == Decode(items[0], defaultOffset)
  {
    var vs := DecodeItems(items, defaultOffset);
    if |items| == 1 { assert vs[0] == Decode(items[0], defaultOffset); }
  }

  lemma {:induction false} DecodeMembersLast(ms: seq<(string, Json)>, defaultOffset: int)
    requires |ms| > 0
    ensures DecodeMembers(ms, defaultOffset)[|ms| - 1].1 == Decode(ms[|ms| - 1].1, defaultOffset)
    decreases |ms|
  {
    if |ms| > 1 {
      DecodeMembersLast(ms[1..], defaultOffset);
      assert ms[1..][|ms| - 2] == ms[|ms| - 1];
    }
  }

  /** The decoder turns an object into a datetime exactly when all its members
      are `"$date"` (so that the dict it builds has that one key) and the last of
      them holds a number; any other object stays a dict. */
  lemma DecodeObject(ms: seq<(string, Json)>, defaultOffset: int)
    ensures Decode(JObj(ms), defaultOffset).PDateTime? <==>
      (|ms| > 0 && (forall i :: 0 <= i < |ms| ==> ms[i].0 == DateKey) && IsJsonNumber(ms[|ms| - 1].1))
    ensures !Decode(JObj(ms), defaultOffset).PDateTime? ==>
      Decode(JObj(ms), defaultOffset) == PDict(FromPairs(DecodeMembers(ms, defaultOffset)))
  {
    var ps := DecodeMembers(ms, defaultOffset);
    FromPairsSingleKey(ps, DateKey);
    if |ms| > 0 {
      DecodeMembersLast(ms, defaultOffset);
      DecodeIsNumber(ms[|ms| - 1].1, defaultOffset);
    }
  }

  // ---------------------------------------------------------------------------
  // Values that survive a round trip unchanged.

  /** No datetime, tuple or table anywhere; dicts have distinct keys and are not
      themselves of the `{"$date": number}` form. */
  predicate Plain(v: PyVal)
    decreases v, 1
  {
    match v
    case PDateTime(_, _) => false
    case PTuple(_) => false
    case PTable(_) => false
    case PList(items) => PlainItems(items)
    case PDict(es) => UniqueKeys(es) && !(|es| == 1 && es[0].0 == DateKey && IsNumber(es[0].1)) && PlainEntries(es)
    case _ => true
  }

  predicate PlainItems(items: seq<PyVal>)
    decreases items, 0
  {
    items == [] || (Plain(items[0]) && PlainItems(items[1..]))
  }

  predicate PlainEntries(es: Dict<string, PyVal>)
    decreases es, 0
  {
    es == [] || (var e := es[0]; assert e.1 < e; Plain(e.1) && PlainEntries(es[1..]))
  }

  /** `loads(dumps(v)) == v` for plain values. */
  lemma {:induction false} PlainRoundTrip(v: PyVal, defaultOffset: int)
    requires Plain(v)
    ensures Encode(v, defaultOffset).Ok? && Decode(Encode(v, defaultOffset).value, defaultOffset) == v
    decreases v, 1
  {
    match v
    case PList(items) =>
      if items != [] { assert Plain(items[0]); }
      PlainItemsRoundTrip(items, defaultOffset);
      var js := EncodeItems(items, defaultOffset).value;
      assert DecodeItems(js, defaultOffset) == items;
    case PDict(es) =>
      PlainEntriesRoundTrip(es, defaultOffset);
      var js := EncodeEntries(es, defaultOffset).value;
      FromPairsOfUnique(es);
    case _ =>
  }

  lemma {:induction false} PlainItemsRoundTrip(items: seq<PyVal>, defaultOffset: int)
    requires PlainItems(items)
    ensures EncodeItems(items, defaultOffset).Ok?
    ensures DecodeItems(EncodeItems(items, defaultOffset).value, defaultOffset) == items
    decreases items, 0
  {
    if items != [] {
      PlainRoundTrip(items[0], defaultOffset);
      PlainItemsRoundTrip(items[1..], defaultOffset);
      var js := EncodeItems(items, defaultOffset).value;
      assert js[1..] == EncodeItems(items[1..], defaultOffset).value;
    }
  }

  lemma {:induction false} PlainEntriesRoundTrip(es: Dict<string, PyVal>, defaultOffset: int)
    requires PlainEntries(es)
    ensures EncodeEntries(es, defaultOffset).Ok?
    ensures DecodeMembers(EncodeEntries(es, defaultOffset).value, defaultOffset) == es
    decreases es, 0
  {
    if es != [] {
      var e := es[0];
      assert e.1 < e;
      PlainRoundTrip(e.1, defaultOffset);
      PlainEntriesRoundTrip(es[1..], defaultOffset);
      var js := EncodeEntries(es, defaultOffset).value;
      assert js[1..] == EncodeEntries(es[1..], defaultOffset).value;
    }
  }

  // ---------------------------------------------------------------------------
  // Encoding fails only on tables.

  predicate HasTable(v: PyVal)
    decreases v, 1
  {
    match v
    case PTable(_) => true
    case PList(items) => ItemsHaveTable(items)
    case PTuple(items) => ItemsHaveTable(items)
    case PDict(es) => EntriesHaveTable(es)
    case _ => false
  }

  predicate ItemsHaveTable(items: seq<PyVal>)
    decreases items, 0
  {
    items != [] && (HasTable(items[0]) || ItemsHaveTable(items[1..]))
  }

  predicate EntriesHaveTable(es: Dict<string, PyVal>)
    decreases es, 0
  {
    es != [] && (var e := es[0]; assert e.1 < e; HasTable(e.1) || EntriesHaveTable(es[1..]))
  }

  lemma {:induction false} EncodeFailsOnTables(v: PyVal, defaultOffset: int)
    ensures Encode(v, defaultOffset).Err? <==> HasTable(v)
    ensures Encode(v, defaultOffset).Err? ==> Encode(v, defaultOffset).error == NotSerializable
    decreases v, 1
  {
    match v
    case PList(items) => ItemsFailOnTables(items, defaultOffset);
    case PTuple(items) => ItemsFailOnTables(items, defaultOffset);
    case PDict(es) => EntriesFailOnTables(es, defaultOffset);
    case _ =>
  }

  lemma {:induction false} ItemsFailOnTables(items: seq<PyVal>, defaultOffset: int)
    ensures EncodeItems(items, defaultOffset).Err? <==> ItemsHaveTable(items)
    ensures EncodeItems(items, defaultOffset).Err? ==> EncodeItems(items, defaultOffset).error == NotSerializable
    decreases items, 0
  {
    if items != [] {
      EncodeFailsOnTables(items[0], defaultOffset);
      ItemsFailOnTables(items[1..], defaultOffset);
    }
  }

  lemma {:induction false} EntriesFailOnTables(es: Dict<string, PyVal>, defaultOffset: int)
    ensures EncodeEntries(es, defaultOffset).Err? <==> EntriesHaveTable(es)
    ensures EncodeEntries(es, defaultOffset).Err? ==> EncodeEntries(es, defaultOffset).error == NotSerializable
    decreases es, 0
  {
    if es != [] {
      var e := es[0];
      assert e.1 < e;
      EncodeFailsOnTables(e.1, defaultOffset);
      EntriesFailOnTables(es[1..], defaultOffset);
    }
  }

  // ---------------------------------------------------------------------------
  // `_SerializeValueToJSON`.

  const AtomicFlag: string := "RWorkerProcess_IsAtomicDatetime"
  const ListFlag: string := "RWorkerProcess_IsDatetimeList"

  /** A datetime, or a list or tuple holding exactly one datetime. */
  predicate IsDateTimeLike(v: PyVal) {
    v.PDateTime? || ((v.PList? || v.PTuple?) && |v.items| == 1 && v.items[0].PDateTime?)
  }

  predicate AllDateTimeLike(es: Dict<string, PyVal>) {
    forall i :: 0 <= i < |es| ==> IsDateTimeLike(es[i].1)
  }

  /** The value actually sent for `value`, before encoding: a wrapper dict
      or the value itself, holding a table exactly when the value does. */
  function WrapValue(v: PyVal): (r: PyVal)
    ensures r == v || r.PDict?
    ensures HasTable(r) <==> HasTable(v)
  {
    if IsDateTimeLike(v) then
      DateTimeLikeHasNoTable(v);
      PDict([("value", v), (AtomicFlag, PBool(true))])
    else if v.PDict? && AllDateTimeLike(v.entries) then
      SetDateTimeLikeHasNoTable(v.entries);
      PDict(Set(v.entries, ListFlag, PBool(true)))
    else v
  }

  /** `_SerializeValueToJSON({'value': v})`: the request body, always the
      object `{"value": ...}`, produced exactly when the value holds no table. */
  function SerializeValue(v: PyVal, defaultOffset: int): (r: Result<Json, string>)
    ensures r.Ok? <==> !HasTable(v)
    ensures r.Err? ==> r.error == NotSerializable
    ensures r.Ok? ==> r.value.JObj? && |r.value.members| == 1 && r.value.members[0].0 == "value"
    ensures r.Ok? ==>
      Encode(WrapValue(v), defaultOffset).Ok? && r.value == JObj([("value", Encode(WrapValue(v), defaultOffset).value)])
  {
    var top := [("value", WrapValue(v))];
    EncodeFailsOnTables(PDict(top), defaultOffset);
    assert top[1..] == [];
    assert HasTable(PDict(top)) == EntriesHaveTable(top);
    assert EntriesHaveTable(top) == (HasTable(WrapValue(v)) || EntriesHaveTable([]));
    assert EncodeEntries(top, defaultOffset).Ok? ==>
             EncodeEntries(top, defaultOffset).value == [("value", Encode(WrapValue(v), defaultOffset).value)];
    Encode(PDict(top), defaultOffset)
  }

  /** A datetime-like value holds no table, and neither does its wrapper. */
  lemma DateTimeLikeHasNoTable(v: PyVal)
    requires IsDateTimeLike(v)
    ensures !HasTable(v) && !HasTable(PDict([("value", v), (AtomicFlag, PBool(true))]))
  {
    if v.PList? || v.PTuple? {
      assert v.items[1..] == [];
      assert !ItemsHaveTable(v.items);
    }
    var w := [("value", v), (AtomicFlag, PBool(true))];
    assert w[1..] == [(AtomicFlag, PBool(true))] && w[1..][1..] == [];
    assert !EntriesHaveTable(w[1..]);
  }

  /** The atomic-datetime wrapper is used exactly for a datetime or a one-element list or tuple of one. */
  lemma WrapAtomicIff(v: PyVal)
    ensures WrapValue(v) == PDict([("value", v), (AtomicFlag, PBool(true))]) <==> IsDateTimeLike(v)
  {
    if !IsDateTimeLike(v) && v.PDict? && AllDateTimeLike(v.entries) {
      SetGet(v.entries, ListFlag, PBool(true));
      assert ListFlag in Keys(Set(v.entries, ListFlag, PBool(true)));
    } else if !IsDateTimeLike(v) && v.PDict? && |v.entries| > 0 {
      var e := v.entries[0];
      assert e.1 < e;
    }
  }

  /** A value is sent as it is exactly when it is neither datetime-like nor a
      dict of datetime-like values (the empty dict included). */
  lemma WrapUnchangedIff(v: PyVal)
    ensures WrapValue(v) == v <==> !IsDateTimeLike(v) && !(v.PDict? && AllDateTimeLike(v.entries))
  {
    if !IsDateTimeLike(v) && v.PDict? && AllDateTimeLike(v.entries) {
      SetGet(v.entries, ListFlag, PBool(true));
      if Set(v.entries, ListFlag, PBool(true)) == v.entries {
        var i := GetIndex(v.entries, ListFlag);
      }
    }
  }

  /** A dict of datetime-like values keeps every other entry and gains the list
      flag: appended when it is new (so the empty dict becomes the flag alone),
      overwritten in place when the dict already has that key. */
  lemma WrapDateTimeDict(d: Dict<string, PyVal>)
    requires UniqueKeys(d) && AllDateTimeLike(d)
    ensures WrapValue(PDict(d)).PDict?
    ensures var w := WrapValue(PDict(d)).entries;
            UniqueKeys(w) && Get(w, ListFlag) == Some(PBool(true))
            && (forall k :: k != ListFlag ==> Get(w, k) == Get(d, k))
            && (ListFlag !in Keys(d) ==> w == d + [(ListFlag, PBool(true))])
            && (ListFlag in Keys(d) ==> Keys(w) == Keys(d))
  {
    var w := Set(d, ListFlag, PBool(true));
    assert WrapValue(PDict(d)) == PDict(w);
    SetGet(d, ListFlag, PBool(true));
    SetKeepsUniqueKeys(d, ListFlag, PBool(true));
    if ListFlag !in Keys(d) {
      SetAbsent(d, ListFlag, PBool(true));
    }
  }

  lemma {:induction false} SetDateTimeLikeHasNoTable(es: Dict<string, PyVal>)
    requires AllDateTimeLike(es)
    ensures !EntriesHaveTable(es) && !EntriesHaveTable(Set(es, ListFlag, PBool(true)))
  {
    if es != [] {
      var e := es[0];
      assert e.1 < e;
      assert IsDateTimeLike(e.1);
      if e.1.PList? || e.1.PTuple? {
        assert e.1.items[1..] == [];
        assert !HasTable(e.1.items[0]);
        assert !ItemsHaveTable(e.1.items);
      }
      assert !HasTable(e.1);
      assert EntriesHaveTable(es) == (HasTable(e.1) || EntriesHaveTable(es[1..]));
      SetDateTimeLikeHasNoTable(es[1..]);
      var w := Set(es, ListFlag, PBool(true));
      if e.0 == ListFlag {
        assert w[0] == (ListFlag, PBool(true)) && w[1..] == es[1..];
      } else {
        assert w[0] == e && w[1..] == Set(es[1..], ListFlag, PBool(true));
      }
      assert EntriesHaveTable(w) == (HasTable(w[0].1) || EntriesHaveTable(w[1..]));
    }
  }
}
