/** What the estimate and the decoder promise. */
module SchemaTheorems {
  import opened Protocol
  import opened Schema
  import opened SchemaTypes
  import opened MessagePack
  import opened Sums
  import Ether

  // ---- Conforming records -----------------------------------------------------------------------

  // A value of the named type, in the declared width or a narrower format of the same family.
  ghost predicate Conforms(w: Wire, t: string) {
    && Proper(w)
    && match w
       case WBool(_) => t == "bool"
       case WInt(f, _, v) => IsIntName(t) && InRange(t, v) && Width(f) <= FixedSize(t)
       case WFloat32(_) => t in {"float32", "float64"} && ValueOf(w).Real?
       case WFloat64(_) => t == "float64" && ValueOf(w).Real?
       case WText(s) => exists n :: 1 <= n <= 242 && IsText(t, n) && |s| <= n
  }

  // A record: some schema fields, each at most once, in any order.
  datatype Entry = Entry(field: nat, wire: Wire)

  ghost predicate RecordOf(fields: seq<SchemaField>, entries: seq<Entry>) {
    && (forall i :: 0 <= i < |entries| ==>
      entries[i].field < |fields| && Conforms(entries[i].wire, fields[entries[i].field].typ))
    && (forall i, j :: 0 <= i < j < |entries| ==> entries[i].field != entries[j].field)
  }

  function Ascii(s: string): (r: seq<byte>)
    ensures |r| == |s|
  {
    seq(|s|, i requires 0 <= i < |s| => (s[i] as int % 256) as byte)
  }

  function EncodeEntry(fields: seq<SchemaField>, e: Entry): seq<byte> {
    if e.field < |fields| then EncodeText(Ascii(fields[e.field].name)) + Encode(e.wire) else []
  }

  function EncodeEntries(fields: seq<SchemaField>, entries: seq<Entry>): seq<byte> {
    if |entries| == 0 then []
    else EncodeEntries(fields, entries[..|entries| - 1]) + EncodeEntry(fields, entries[|entries| - 1])
  }

  function EncodeRecord(fields: seq<SchemaField>, entries: seq<Entry>): seq<byte> {
    (if |entries| <= 15 then [(0x80 + |entries|) as byte] else [0xde] + BigEndian(|entries|, 2))
      + EncodeEntries(fields, entries)
  }

  // ---- The estimate is an upper bound, and by how much ---------------------------------------------

  // Types whose largest value takes a byte less than the estimate allows: a bool has no marker of its own, and short
  // text has a one-byte header.
  ghost predicate Roomy(t: string) { t == "bool" || exists n :: 1 <= n <= 31 && IsText(t, n) }

  ghost function Spare(f: SchemaField): int { if Roomy(f.typ) then 1 else 0 }

  // What the estimate leaves unused: also two bytes of the map header for up to 15 fields.
  ghost function Slack(fields: seq<SchemaField>): int {
    (if |fields| <= 15 then 2 else 0) + Total(fields, Spare)
  }

  // A largest value of the type.
  ghost function LargestWire(t: string): Wire {
    if t == "bool" then WBool(true)
    else if t == "float32" then WFloat32(0) else if t == "float64" then WFloat64(0)
    else if t == "int8" || t == "uint8" then WInt(Width1, false, 0)
    else if t == "int16" || t == "uint16" then WInt(Width2, false, 0)
    else if t == "int32" || t == "uint32" then WInt(Width4, false, 0)
    else if t == "int64" || t == "uint64" then WInt(Width8, false, 0)
    else WText(seq(LengthOf(t), _ => 0x61))
  }

  ghost function LengthOf(t: string): nat { if n: nat :| 1 <= n <= 242 && IsText(t, n) then n else 0 }

  ghost predicate Known(t: string) { IsFixed(t) || exists n :: 1 <= n <= 242 && IsText(t, n) }

  lemma OneLength(t: string, m: nat, n: nat)
    requires IsText(t, m) && IsText(t, n)
    ensures m == n
  {
    TextNumber(t, m);
    TextNumber(t, n);
  }

  /** What a field adds to the estimate: key header and name, and of a known type a marker, or two bytes for text, and
      the declared size. */
  lemma CostOf(f: SchemaField)
    ensures !Known(f.typ) ==> FieldCost(f) == 1 + |f.name|
    ensures IsFixed(f.typ) ==> FieldCost(f) == 1 + |f.name| + 1 + FixedSize(f.typ) && forall n :: !IsText(f.typ, n)
    ensures forall n :: 1 <= n <= 242 && IsText(f.typ, n) ==> FieldCost(f) == 1 + |f.name| + 2 + n
  {
    hide KindOf, FieldByteSize, IsFixed, IsText, FixedSize;
    KnownTypes(f.typ);
    KindIs(f.typ);
    if IsFixed(f.typ) {
      NoTextKind(f.typ);
      forall n ensures !IsText(f.typ, n) { FixedAreNoTexts(f.typ, n); }
    }
  }

  lemma NoTextKind(t: string)
    requires IsFixed(t)
    ensures !KindOf(t).Text?
  {
    FixedAreNoTexts(t, 0);
  }

  lemma WireSize(w: Wire, t: string)
    requires Conforms(w, t)
    ensures Known(t)
    ensures IsFixed(t) ==> |Encode(w)| <= 1 + FixedSize(t) - if t == "bool" then 1 else 0
    ensures forall n :: 1 <= n <= 242 && IsText(t, n) ==> |Encode(w)| <= n + if n <= 31 then 1 else 2
  {
    forall n | 1 <= n <= 242 && IsText(t, n) ensures !IsFixed(t) && |Encode(w)| <= n + if n <= 31 then 1 else 2 {
      if IsFixed(t) { FixedAreNoTexts(t, n); }
      hide Span, BigEndian, Ieee;
      assert w.WText?;
      var m :| 1 <= m <= 242 && IsText(t, m) && |w.text| <= m;
      OneLength(t, m, n);
    }
    hide Span, Ieee, IsText, InRange;
    if w.WText? {
      var m :| 1 <= m <= 242 && IsText(t, m) && |w.text| <= m;
      if IsFixed(t) { FixedAreNoTexts(t, m); }
    }
  }

  lemma LargestSize(t: string)
    requires Known(t)
    ensures Conforms(LargestWire(t), t)
    ensures IsFixed(t) ==> |Encode(LargestWire(t))| == 1 + FixedSize(t) - if t == "bool" then 1 else 0
    ensures forall n :: 1 <= n <= 242 && IsText(t, n) ==> |Encode(LargestWire(t))| == n + if n <= 31 then 1 else 2
  {
    Spans();
    hide Span;
    if IsFixed(t) {
      ZeroIsReal();
      hide Ieee, IsText;
      FixedAreNoTexts(t, 0);
      forall n ensures !IsText(t, n) { FixedAreNoTexts(t, n); }
    } else {
      hide InRange, Ieee, IsText;
      forall n | 1 <= n <= 242 && IsText(t, n) ensures LengthOf(t) == n { OneLength(t, LengthOf(t), n); }
    }
  }

  lemma ZeroIsReal()
    ensures ValueOf(WFloat32(0)).Real? && ValueOf(WFloat64(0)).Real?
  {
    hide TwoTo, Pow2;
    Exponents(8);
    Exponents(11);
  }

  lemma Exponents(e: nat)
    requires e > 1
    ensures Pow2(e) > 2
  {
    assert Pow2(e) == 2 * Pow2(e - 1) && Pow2(e - 1) == 2 * Pow2(e - 2);
  }

  lemma EntrySize(fields: seq<SchemaField>, e: Entry)
    requires ValidSchema(fields) && e.field < |fields| && Conforms(e.wire, fields[e.field].typ)
    ensures |EncodeEntry(fields, e)| <= FieldCost(fields[e.field]) - Spare(fields[e.field])
  {
    hide Conforms, IsText, FixedSize, FieldCost, IsFixed, Encode;
    var f := fields[e.field];
    assert |EncodeText(Ascii(f.name))| == 1 + |f.name|;
    WireSize(e.wire, f.typ);
    CostOf(f);
    SpareIs(f);
  }

  lemma SpareIs(f: SchemaField)
    requires Known(f.typ)
    ensures IsFixed(f.typ) ==> Spare(f) == if f.typ == "bool" then 1 else 0
    ensures forall n :: 1 <= n <= 242 && IsText(f.typ, n) ==> Spare(f) == if n <= 31 then 1 else 0
  {
    hide IsText;
    forall n | 1 <= n <= 242 && IsText(f.typ, n) ensures Spare(f) == if n <= 31 then 1 else 0 {
      if IsFixed(f.typ) { FixedAreNoTexts(f.typ, n); }
      forall m | IsText(f.typ, m) ensures m == n { OneLength(f.typ, m, n); }
    }
    if IsFixed(f.typ) {
      forall n ensures !IsText(f.typ, n) { FixedAreNoTexts(f.typ, n); }
    }
  }

  lemma {:induction false} EntriesSize(fields: seq<SchemaField>, entries: seq<Entry>)
    ensures |EncodeEntries(fields, entries)| == Total(entries, SizeIn(fields))
  {
    if |entries| > 0 { EntriesSize(fields, entries[..|entries| - 1]); }
  }

  function SizeIn(fields: seq<SchemaField>): Entry -> int { (e: Entry) => |EncodeEntry(fields, e)| }

  lemma {:induction false} Remove<T>(s: seq<T>, i: nat, f: T -> int)
    requires i < |s|
    ensures Total(s[..i] + s[i + 1..], f) == Total(s, f) - f(s[i])
  {
    var n := |s| - 1;
    if i == n {
      assert s[..i] + s[i + 1..] == s[..n];
    } else {
      Remove(s[..n], i, f);
      assert (s[..i] + s[i + 1..])[..n - 1] == s[..n][..i] + s[..n][i + 1..];
    }
  }

  // Entries of the first n fields cost no more than those fields.
  lemma {:induction false} DistinctEntriesFit(fields: seq<SchemaField>, entries: seq<Entry>, n: nat)
    requires ValidSchema(fields) && RecordOf(fields, entries) && n <= |fields|
    requires forall i :: 0 <= i < |entries| ==> entries[i].field < n
    ensures Total(entries, SizeIn(fields)) + 3 <= Estimate(fields[..n]) - Total(fields[..n], Spare)
    ensures |entries| <= n
  {
    hide ValidSchema, RecordOf, Conforms, FieldCost, EncodeEntry, Spare;
    assert |entries| > 0 ==> entries[0].field < n;
    if n > 0 {
      LastField(fields, n);
      if i: nat :| i < |entries| && entries[i].field == n - 1 {
        hide Estimate;
        var rest := entries[..i] + entries[i + 1..];
        EntryCost(fields, entries, i);
        Remove(entries, i, SizeIn(fields));
        hide Total;
        RestIsRecord(fields, entries, i, n);
        DistinctEntriesFit(fields, rest, n - 1);
      } else {
        LeastCost(fields, n - 1);
        DistinctEntriesFit(fields, entries, n - 1);
      }
    }
  }

  lemma LastField(fields: seq<SchemaField>, n: nat)
    requires 0 < n <= |fields|
    ensures Estimate(fields[..n]) == Estimate(fields[..n - 1]) + FieldCost(fields[n - 1])
    ensures Total(fields[..n], Spare) == Total(fields[..n - 1], Spare) + Spare(fields[n - 1])
  {
    assert fields[..n][..n - 1] == fields[..n - 1];
    hide KindOf;
  }

  lemma LeastCost(fields: seq<SchemaField>, i: nat)
    requires ValidSchema(fields) && i < |fields|
    ensures Spare(fields[i]) <= FieldCost(fields[i])
  {
    hide FieldByteSize, IsFixed, IsText, KindOf, Spare, FieldCost;
    KnownTypes(fields[i].typ);
    CostOf(fields[i]);
    SpareIs(fields[i]);
  }

  lemma EntryCost(fields: seq<SchemaField>, entries: seq<Entry>, i: nat)
    requires ValidSchema(fields) && RecordOf(fields, entries) && i < |entries|
    ensures entries[i].field < |fields|
    ensures SizeIn(fields)(entries[i]) <= FieldCost(fields[entries[i].field]) - Spare(fields[entries[i].field])
  {
    hide ValidSchema, Conforms, FieldCost, EncodeEntry, Spare;
    EntrySize(fields, entries[i]);
  }

  lemma RestIsRecord(fields: seq<SchemaField>, entries: seq<Entry>, i: nat, n: nat)
    requires RecordOf(fields, entries) && i < |entries| && entries[i].field == n - 1
    requires forall j :: 0 <= j < |entries| ==> entries[j].field < n
    ensures RecordOf(fields, entries[..i] + entries[i + 1..])
    ensures var rest := entries[..i] + entries[i + 1..]; forall j :: 0 <= j < |rest| ==> rest[j].field < n - 1
  {
    hide Conforms;
    var rest := entries[..i] + entries[i + 1..];
    assert forall j :: 0 <= j < |rest| ==> rest[j] == entries[if j < i then j else j + 1];
  }

  /** For every valid schema, every conforming record packs into EstimatePackedBytes less its slack. */
  lemma EstimateBoundsRecords(fields: seq<SchemaField>, entries: seq<Entry>)
    requires ValidSchema(fields) && RecordOf(fields, entries)
    ensures |EncodeRecord(fields, entries)| <= Estimate(fields) - Slack(fields)
  {
    EntriesSize(fields, entries);
    assert fields[..|fields|] == fields;
    DistinctEntriesFit(fields, entries, |fields|);
    hide ValidSchema, RecordOf, EncodeEntries, Estimate, Spare;
  }

  // Every one of the first n fields, with a largest value.
  ghost function Fullest(fields: seq<SchemaField>, n: nat): (entries: seq<Entry>)
    requires n <= |fields|
    ensures |entries| == n
  {
    seq(n, i requires 0 <= i < n => Entry(i, LargestWire(fields[i].typ)))
  }

  lemma {:induction false} FullestSize(fields: seq<SchemaField>, n: nat)
    requires ValidSchema(fields) && n <= |fields|
    ensures |EncodeEntries(fields, Fullest(fields, n))| == Estimate(fields[..n]) - Total(fields[..n], Spare) - 3
  {
    hide ValidSchema, FieldCost, EncodeEntry, LargestWire, Spare;
    if n > 0 {
      FullestSize(fields, n - 1);
      LastField(fields, n);
      var all := Fullest(fields, n);
      assert all[..n - 1] == Fullest(fields, n - 1);
      FullestEntry(fields, n - 1);
    }
  }

  lemma FullestEntry(fields: seq<SchemaField>, i: nat)
    requires ValidSchema(fields) && i < |fields|
    ensures |EncodeEntry(fields, Entry(i, LargestWire(fields[i].typ)))| == FieldCost(fields[i]) - Spare(fields[i])
    ensures Conforms(LargestWire(fields[i].typ), fields[i].typ)
  {
    hide Conforms, LargestWire, Encode, FieldByteSize, FieldCost, Spare, IsFixed, IsText, FixedSize;
    assert |EncodeText(Ascii(fields[i].name))| == 1 + |fields[i].name|;
    KnownTypes(fields[i].typ);
    LargestSize(fields[i].typ);
    CostOf(fields[i]);
    SpareIs(fields[i]);
  }

  lemma SizeOfRecord(fields: seq<SchemaField>, entries: seq<Entry>)
    ensures |EncodeRecord(fields, entries)| == |EncodeEntries(fields, entries)| + if |entries| <= 15 then 1 else 3
  {
    hide EncodeEntries;
  }

  lemma FullestRecord(fields: seq<SchemaField>)
    requires ValidSchema(fields)
    ensures RecordOf(fields, Fullest(fields, |fields|))
  {
    hide ValidSchema, Conforms, LargestWire;
    var entries := Fullest(fields, |fields|);
    forall i | 0 <= i < |entries|
      ensures Conforms(entries[i].wire, fields[entries[i].field].typ)
    {
      FullestEntry(fields, i);
    }
  }

  /** And some conforming record is exactly that long. */
  lemma EstimateIsTight(fields: seq<SchemaField>) returns (entries: seq<Entry>)
    requires ValidSchema(fields)
    ensures RecordOf(fields, entries) && |entries| == |fields|
    ensures |EncodeRecord(fields, entries)| == Estimate(fields) - Slack(fields)
  {
    hide ValidSchema, Conforms, EncodeEntries, Estimate, Spare, LargestWire, Fullest;
    entries := Fullest(fields, |fields|);
    FullestSize(fields, |fields|);
    FullestRecord(fields);
    assert fields[..|fields|] == fields;
    SizeOfRecord(fields, entries);
  }

  // The dashboard's warning after a schema is stored.
  predicate Warns(fields: seq<SchemaField>, sf: int) { Estimate(fields) > MaxPayloadBytes(sf) }

  /** A schema stored without a warning never gets a conforming payload dropped for its size at that SF. */
  lemma NoWarningNoSizeDrop(fields: seq<SchemaField>, entries: seq<Entry>, pkt: TransmitPacket, params: SessionParams,
      env: Ether.Env)
    requires ValidSchema(fields) && RecordOf(fields, entries) && !Warns(fields, params.spreadingFactor)
    requires pkt.payload == Bytes(EncodeRecord(fields, entries))
    ensures Ether.JudgeFrame(pkt, params, env) != Ether.Drop(SfLimitExceeded)
    ensures var size, sf := |EncodeRecord(fields, entries)|, params.spreadingFactor;
      size <= 242 && (sf >= 9 ==> size <= 115) && (sf >= 10 ==> size <= 51)
  {
    hide EncodeRecord, Estimate, ValidSchema, RecordOf, Slack, Ether.JudgeFrame;
    EstimateBoundsRecords(fields, entries);
    SlackCounts(fields);
    SmallFramesPass(pkt, params, env);
  }

  lemma SlackCounts(fields: seq<SchemaField>)
    ensures 0 <= Slack(fields)
  {
    hide Roomy;
    NonNegative(fields, Spare);
  }

  /** Some conforming record is too long for the SF exactly when the estimate exceeds its ceiling by more than the
      slack. */
  lemma SizeDropIff(fields: seq<SchemaField>, sf: int)
    requires ValidSchema(fields)
    ensures (exists entries :: RecordOf(fields, entries) && |EncodeRecord(fields, entries)| > MaxPayloadBytes(sf))
      <==> Estimate(fields) - Slack(fields) > MaxPayloadBytes(sf)
  {
    hide EncodeRecord, Estimate, ValidSchema, RecordOf, Slack;
    forall entries | RecordOf(fields, entries)
      ensures |EncodeRecord(fields, entries)| <= Estimate(fields) - Slack(fields)
    {
      EstimateBoundsRecords(fields, entries);
    }
    var fullest := EstimateIsTight(fields);
  }

  lemma SmallFramesPass(pkt: TransmitPacket, params: SessionParams, env: Ether.Env)
    requires Ether.PayloadSize(pkt) <= MaxPayloadBytes(params.spreadingFactor)
    ensures Ether.JudgeFrame(pkt, params, env) != Ether.Drop(SfLimitExceeded)
  {
  }

  // ---- The decoder -------------------------------------------------------------------------------

  function Shorter(a: nat, b: nat): nat { if a < b then a else b }

  lemma {:induction false} PositionalNames(items: seq<Value>, fields: seq<SchemaField>)
    requires forall i, j :: 0 <= i < j < |fields| ==> fields[i].name != fields[j].name
    ensures Named(items, fields).Keys == Names(fields[..Shorter(|items|, |fields|)])
    ensures forall i :: 0 <= i < Shorter(|items|, |fields|) ==> Named(items, fields)[fields[i].name] == items[i]
  {
    hide Names;
    var k := Shorter(|items|, |fields|);
    if |fields| == 0 {
      NoNames(fields[..k]);
    } else {
      var n := |fields| - 1;
      PositionalNames(items, fields[..n]);
      if k == |fields| {
        assert fields[..k] == fields && fields[..n][..n] == fields[..n];
        OneMoreName(fields);
        NameIsNew(fields);
      } else {
        assert fields[..n][..k] == fields[..k];
      }
      forall i | 0 <= i < k
        ensures fields[i].name in Named(items, fields) && Named(items, fields)[fields[i].name] == items[i]
      {
        NameListed(fields[..k], i);
        if i < n { assert fields[..n][i] == fields[i]; }
      }
    }
  }

  lemma NameListed(fields: seq<SchemaField>, i: nat)
    requires i < |fields|
    ensures fields[i].name in Names(fields)
  {
  }

  lemma NoNames(fields: seq<SchemaField>)
    requires |fields| == 0
    ensures Names(fields) == {}
  {
  }

  lemma OneMoreName(fields: seq<SchemaField>)
    requires |fields| > 0
    ensures Names(fields) == Names(fields[..|fields| - 1]) + {fields[|fields| - 1].name}
  {
  }

  lemma NameIsNew(fields: seq<SchemaField>)
    requires |fields| > 0 && forall i, j :: 0 <= i < j < |fields| ==> fields[i].name != fields[j].name
    ensures fields[|fields| - 1].name !in Names(fields[..|fields| - 1])
  {
  }

  /** An array of m values decodes like the record of its first min(m, number of fields) fields, to the same values with
      the same problems: missing values are missing fields, surplus ones are ignored. */
  lemma ShapesAgree(values: map<string, Value>, items: seq<Value>, fields: seq<SchemaField>)
    requires forall i, j :: 0 <= i < j < |fields| ==> fields[i].name != fields[j].name
    requires values.Keys == Names(fields[..Shorter(|items|, |fields|)])
    requires forall i :: 0 <= i < Shorter(|items|, |fields|) ==> values[fields[i].name] == items[i]
    ensures Named(items, fields) == values
    ensures Decoded(Named(items, fields), fields) == Decoded(values, fields)
    ensures Problems(Named(items, fields), fields) == Problems(values, fields)
  {
    PositionalNames(items, fields);
    SameEntries(Named(items, fields), values, items, fields);
  }

  lemma SameEntries(a: map<string, Value>, b: map<string, Value>, items: seq<Value>, fields: seq<SchemaField>)
    requires a.Keys == b.Keys == Names(fields[..Shorter(|items|, |fields|)])
    requires forall i :: 0 <= i < Shorter(|items|, |fields|) ==> a[fields[i].name] == items[i] == b[fields[i].name]
    ensures a == b
  {
    forall name | name in a ensures a[name] == b[name] {
      var i :| 0 <= i < Shorter(|items|, |fields|) && fields[..Shorter(|items|, |fields|)][i].name == name;
      assert fields[i].name == name;
    }
  }

  lemma {:induction false} ShownKeys(values: map<string, Value>, fields: seq<SchemaField>)
    ensures Shown(values, fields).Keys == Names(fields)
  {
    if |fields| > 0 {
      var n := |fields| - 1;
      ShownKeys(values, fields[..n]);
      assert Names(fields) == Names(fields[..n]) + {fields[n].name};
      hide FieldValue;
    }
  }

  lemma {:induction false} ShownField(values: map<string, Value>, fields: seq<SchemaField>, i: nat)
    requires forall i, j :: 0 <= i < j < |fields| ==> fields[i].name != fields[j].name
    requires i < |fields|
    ensures fields[i].name in Shown(values, fields)
      && Shown(values, fields)[fields[i].name] == FieldValue(values, fields[i])
  {
    hide FieldValue;
    var n := |fields| - 1;
    if i < n { ShownField(values, fields[..n], i); }
  }

  /** Decoded keys are exactly the schema's and the payload's; a coercible field shows its coercion, a malformed
      one its raw value, a missing one null, and an extra key passes through. */
  lemma DecodedFields(values: map<string, Value>, fields: seq<SchemaField>)
    requires forall i, j :: 0 <= i < j < |fields| ==> fields[i].name != fields[j].name
    ensures Decoded(values, fields).Keys == values.Keys + Names(fields)
    ensures forall i :: 0 <= i < |fields| ==> Decoded(values, fields)[fields[i].name] == FieldValue(values, fields[i])
    ensures forall k :: k in values && k !in Names(fields) ==> Decoded(values, fields)[k] == values[k]
  {
    ShownKeys(values, fields);
    hide FieldValue;
    forall i | 0 <= i < |fields| ensures Decoded(values, fields)[fields[i].name] == FieldValue(values, fields[i]) {
      ShownField(values, fields, i);
    }
  }

  /** Problems are empty exactly when every schema field is present and coerces. */
  lemma {:induction false} NoProblemsIff(values: map<string, Value>, fields: seq<SchemaField>)
    ensures Problems(values, fields) == [] <==>
      forall i :: 0 <= i < |fields| ==> fields[i].name in values && Coerce(values[fields[i].name], fields[i]).Ok?
  {
    if |fields| > 0 {
      var n := |fields| - 1;
      NoProblemsIff(values, fields[..n]);
      assert forall i :: 0 <= i < n ==> fields[..n][i] == fields[i];
      hide Coerce;
    }
  }

  /** Integer coercion keeps the number exactly when it is below 2^63; at 2^63 and above it wraps by 2^64. */
  lemma IntegersLosslessIff(v: Value, f: SchemaField)
    requires KindOf(f.typ).Integer?
    requires (v.Signed? && -TWO63 <= v.i < TWO63) || (v.Unsigned? && 0 <= v.u < TWO64)
    ensures var n := if v.Signed? then v.i else v.u;
      && Coerce(v, f).Ok? && Coerce(v, f).v.Signed? && -TWO63 <= Coerce(v, f).v.i < TWO63
      && (Coerce(v, f).v.i == n <==> n < TWO63)
      && (n >= TWO63 ==> Coerce(v, f).v.i == n - TWO64)
  {
    hide KindOf;
  }
}
