/** A record on its way: packed by a ship, read at the edge, decoded against the schema it was packed for. */
module SchemaRecords {
  import opened Protocol
  import opened Schema
  import opened SchemaTypes
  import opened SchemaTheorems
  import opened MessagePack
  import Ether

  // ---- Values ---------------------------------------------------------------------------------------

  // The same bool or text, or the same number whatever its signedness.
  predicate Same(a: Value, b: Value) {
    if a.Signed? || a.Unsigned? then (b.Signed? || b.Unsigned?) && NumberOf(a) == NumberOf(b) else a == b
  }

  function NumberOf(v: Value): int { match v case Signed(i) => i case Unsigned(u) => u case _ => 0 }

  // Text as Go holds it, a byte per position, and floats that some bit pattern of the type stands for.
  ghost predicate Packable(v: Value, t: string) {
    && (v.Str? ==> forall c :: c in v.s ==> c as int < 256)
    && (v.Real? ==> exists w: Wire :: (w.WFloat32? || (w.WFloat64? && t == "float64")) && Proper(w) && ValueOf(w) == v)
  }

  /** Every packable value of a declared type has a conforming wire, which reads back as that value whatever follows. */
  lemma EveryValueTravels(v: Value, t: string, rest: seq<byte>) returns (w: Wire)
    requires Belongs(v, t) && Packable(v, t)
    ensures Conforms(w, t) && Read(Encode(w) + rest) == Some((ValueOf(w), rest)) && Same(v, ValueOf(w))
  {
    hide Read, Encode, Conforms, Proper, IsText, InRange, ValueOf, Packable;
    match v {
      case Bool(b) => w := BoolTravels(b, t);
      case Signed(i) => w := IntTravels(i, t);
      case Unsigned(u) => w := IntTravels(u, t);
      case Real(_) => w := RealTravels(v, t);
      case Str(s) => w := TextTravels(s, t);
    }
    ConformsProper(w, t);
    ReadBack(w, rest);
  }

  lemma ConformsProper(w: Wire, t: string)
    requires Conforms(w, t)
    ensures Proper(w)
  {
  }

  lemma BoolTravels(b: bool, t: string) returns (w: Wire)
    requires Belongs(Bool(b), t)
    ensures Conforms(w, t) && ValueOf(w) == Bool(b)
  {
    w := WBool(b);
  }

  lemma IntTravels(v: int, t: string) returns (w: Wire)
    requires IsIntName(t) && InRange(t, v)
    ensures Conforms(w, t) && (ValueOf(w) == Signed(v) || ValueOf(w) == Unsigned(v))
  {
    var n := FixedSize(t);
    var f := if n == 1 then Width1 else if n == 2 then Width2 else if n == 4 then Width4 else Width8;
    w := WInt(f, t[0] == 'i', v);
    Spans();
    hide Span, Ieee;
  }

  lemma RealTravels(v: Value, t: string) returns (w: Wire)
    requires v.Real? && Belongs(v, t) && Packable(v, t)
    ensures Conforms(w, t) && ValueOf(w) == v
  {
    hide Span, Ieee, IsText, InRange;
    var x: Wire :| (x.WFloat32? || (x.WFloat64? && t == "float64")) && Proper(x) && ValueOf(x) == v;
    w := x;
  }

  lemma TextTravels(s: string, t: string) returns (w: Wire)
    requires Belongs(Str(s), t) && Packable(Str(s), t)
    ensures Conforms(w, t) && ValueOf(w) == Str(s)
  {
    hide Span, Ieee, IsText, InRange;
    w := WText(Ascii(s));
    AsciiBack(s);
  }

  lemma AsciiBack(s: string)
    requires forall c :: c in s ==> c as int < 256
    ensures Chars(Ascii(s)) == s
  {
    forall i | 0 <= i < |s| ensures Chars(Ascii(s))[i] == s[i] { assert s[i] in s; }
  }

  /** And what a conforming wire stands for is a value of the type. */
  lemma ConformingBelongs(w: Wire, t: string)
    requires Conforms(w, t)
    ensures Belongs(ValueOf(w), t)
  {
    hide Span, Ieee, IsText, InRange;
  }

  // ---- Records ----------------------------------------------------------------------------------------

  // n pairs of a text key and a value; a later pair replaces an earlier one of the same key.
  function ReadPairs(s: seq<byte>, n: nat): Option<(map<string, Value>, seq<byte>)> {
    if n == 0 then Some((map[], s))
    else
      match ReadPairs(s, n - 1)
      case None => None
      case Some((m, rest)) => ReadPair(m, rest)
  }

  function ReadPair(m: map<string, Value>, s: seq<byte>): Option<(map<string, Value>, seq<byte>)> {
    match Read(s)
    case Some((Str(key), rest)) => (match Read(rest) case None => None case Some((v, end)) => Some((m[key := v], end)))
    case _ => None
  }

  // The map the bytes hold: up to 15 pairs after a one-byte header, up to 65535 after a three-byte one.
  function ReadRecord(s: seq<byte>): Option<map<string, Value>> {
    if s == [] then None
    else
      var m := s[0] as int;
      if 0x80 <= m < 0x90 then Kept(ReadPairs(s[1..], m - 0x80))
      else if m == 0xde && |s| >= 3 then Kept(ReadPairs(s[3..], FromBytes(s[1..3])))
      else None
  }

  function Kept(r: Option<(map<string, Value>, seq<byte>)>): Option<map<string, Value>> {
    match r case None => None case Some((m, _)) => Some(m)
  }

  // What the entries say, by field name.
  function ValuesOf(fields: seq<SchemaField>, entries: seq<Entry>): map<string, Value> {
    if |entries| == 0 then map[]
    else
      var e := entries[|entries| - 1];
      var m := ValuesOf(fields, entries[..|entries| - 1]);
      if e.field < |fields| then m[fields[e.field].name := ValueOf(e.wire)] else m
  }

  lemma NameBack(fields: seq<SchemaField>, i: nat, rest: seq<byte>)
    requires ValidSchema(fields) && i < |fields|
    ensures Read(EncodeText(Ascii(fields[i].name)) + rest) == Some((Str(fields[i].name), rest))
  {
    hide Read, EncodeText, FieldByteSize;
    var name := fields[i].name;
    TextBack(Ascii(name), rest);
    forall j | 0 <= j < |name| ensures name[j] as int < 256 { NarrowName(name, j); }
    AsciiBack(name);
  }

  lemma NarrowName(name: string, j: nat)
    requires ValidName(name) && j < |name|
    ensures name[j] as int < 256
  {
    if j == 0 { assert IsLetter(name[0]); }
  }

  lemma PairBack(fields: seq<SchemaField>, e: Entry, m: map<string, Value>, rest: seq<byte>)
    requires ValidSchema(fields) && e.field < |fields| && Proper(e.wire)
    ensures ReadPair(m, EncodeEntry(fields, e) + rest) == Some((m[fields[e.field].name := ValueOf(e.wire)], rest))
  {
    hide Read, EncodeText, Encode, ValidSchema, Proper, ValueOf;
    var name, value := EncodeText(Ascii(fields[e.field].name)), Encode(e.wire);
    assert EncodeEntry(fields, e) + rest == name + (value + rest);
    NameBack(fields, e.field, value + rest);
    ReadBack(e.wire, rest);
  }

  lemma {:induction false} PairsBack(fields: seq<SchemaField>, entries: seq<Entry>, rest: seq<byte>)
    requires ValidSchema(fields)
    requires forall i :: 0 <= i < |entries| ==> entries[i].field < |fields| && Proper(entries[i].wire)
    ensures ReadPairs(EncodeEntries(fields, entries) + rest, |entries|) == Some((ValuesOf(fields, entries), rest))
  {
    hide ReadPair, EncodeEntry, ValidSchema, Proper, ValueOf;
    if |entries| == 0 {
      assert [] + rest == rest;
    } else {
      var n := |entries| - 1;
      var last := EncodeEntry(fields, entries[n]);
      PairsBack(fields, entries[..n], last + rest);
      assert EncodeEntries(fields, entries) + rest == EncodeEntries(fields, entries[..n]) + (last + rest);
      PairBack(fields, entries[n], ValuesOf(fields, entries[..n]), rest);
    }
  }

  /** A packed record reads back as its values by name. */
  lemma RecordReadsBack(fields: seq<SchemaField>, entries: seq<Entry>)
    requires ValidSchema(fields) && RecordOf(fields, entries)
    ensures ReadRecord(EncodeRecord(fields, entries)) == Some(ValuesOf(fields, entries))
  {
    hide ValidSchema, ReadPairs, ValuesOf, EncodeEntries, BigEndian, FromBytes, Span;
    FewEntries(fields, entries);
    ProperEntries(fields, entries);
    var body, s := EncodeEntries(fields, entries), EncodeRecord(fields, entries);
    PairsBack(fields, entries, []);
    assert body + [] == body;
    if |entries| <= 15 {
      assert s[1..] == body;
    } else {
      assert s[1..3] == BigEndian(|entries|, 2) && s[3..] == body;
      Spans();
      BytesBack(|entries|, 2);
      Unique(|entries|, Span(2), 0, |entries|);
    }
  }

  lemma FewEntries(fields: seq<SchemaField>, entries: seq<Entry>)
    requires ValidSchema(fields) && RecordOf(fields, entries)
    ensures |entries| <= 32
  {
    hide Conforms, Estimate, Slack;
    DistinctEntriesFit(fields, entries, |fields|);
  }

  lemma ProperEntries(fields: seq<SchemaField>, entries: seq<Entry>)
    requires RecordOf(fields, entries)
    ensures forall i :: 0 <= i < |entries| ==> entries[i].field < |fields| && Proper(entries[i].wire)
  {
    forall i | 0 <= i < |entries| ensures Proper(entries[i].wire) {
      assert Conforms(entries[i].wire, fields[entries[i].field].typ);
      hide Proper;
    }
  }

  // ---- Through the decoder ------------------------------------------------------------------------------

  // Field i is in the record, with this value.
  ghost predicate Carried(entries: seq<Entry>, i: nat, v: Value) {
    exists j :: 0 <= j < |entries| && entries[j].field == i && ValueOf(entries[j].wire) == v
  }

  ghost predicate Absent(entries: seq<Entry>, i: nat) { forall j :: 0 <= j < |entries| ==> entries[j].field != i }

  lemma {:induction false} ValuesByField(fields: seq<SchemaField>, entries: seq<Entry>, j: nat)
    requires RecordOf(fields, entries) && j < |entries|
    requires forall a, b :: 0 <= a < b < |fields| ==> fields[a].name != fields[b].name
    ensures entries[j].field < |fields|
    ensures var m, name := ValuesOf(fields, entries), fields[entries[j].field].name;
      name in m && m[name] == ValueOf(entries[j].wire)
  {
    hide Conforms, ValueOf;
    var n := |entries| - 1;
    if j < n {
      PrefixIsRecord(fields, entries);
      ValuesByField(fields, entries[..n], j);
    }
  }

  lemma PrefixIsRecord(fields: seq<SchemaField>, entries: seq<Entry>)
    requires RecordOf(fields, entries) && |entries| > 0
    ensures RecordOf(fields, entries[..|entries| - 1])
  {
    hide Conforms;
  }

  lemma {:induction false} OnlyEntries(fields: seq<SchemaField>, entries: seq<Entry>, name: string)
    requires name in ValuesOf(fields, entries)
    ensures exists j :: 0 <= j < |entries| && entries[j].field < |fields| && fields[entries[j].field].name == name
  {
    hide ValueOf;
    var n := |entries| - 1;
    var e := entries[n];
    if e.field >= |fields| || fields[e.field].name != name {
      OnlyEntries(fields, entries[..n], name);
      var j :| 0 <= j < n && entries[..n][j].field < |fields| && fields[entries[..n][j].field].name == name;
      assert entries[j].field < |fields| && fields[entries[j].field].name == name;
    }
  }

  /** What a record says of its fields is what the edge shows: each carried value as itself, each absent one as null and
      as the only kind of problem. */
  lemma RecordDecodes(fields: seq<SchemaField>, entries: seq<Entry>)
    requires ValidSchema(fields) && RecordOf(fields, entries)
    ensures var m := ValuesOf(fields, entries);
      && Decoded(m, fields).Keys == Names(fields)
      && (forall i, v :: 0 <= i < |fields| && Carried(entries, i, v) ==> Decoded(m, fields)[fields[i].name] == Shows(v))
      && (forall i :: 0 <= i < |fields| && Absent(entries, i) ==> Decoded(m, fields)[fields[i].name] == Nil)
      && (forall p :: p in Problems(m, fields) <==> Reported(fields, entries, p))
  {
    hide ValidSchema, RecordOf, ValuesOf, Decoded, Problems, FieldValue, Shows, Carried, Absent;
    var m := ValuesOf(fields, entries);
    Distinct(fields);
    DecodedFields(m, fields);
    forall name | name in m ensures name in Names(fields) { KnownKeys(fields, entries, name); }
    assert m.Keys + Names(fields) == Names(fields);
    forall i, v | 0 <= i < |fields| && Carried(entries, i, v) ensures FieldValue(m, fields[i]) == Shows(v) {
      CarriedField(fields, entries, i, v);
    }
    forall i | 0 <= i < |fields| && Absent(entries, i) ensures FieldValue(m, fields[i]) == Nil {
      AbsentField(fields, entries, i);
    }
    forall p ensures p in Problems(m, fields) <==> Reported(fields, entries, p) { ProblemsOf(fields, entries, p); }
  }

  ghost predicate Reported(fields: seq<SchemaField>, entries: seq<Entry>, p: Problem) {
    exists i :: 0 <= i < |fields| && Absent(entries, i) && p == MissingField(fields[i].name)
  }

  lemma Distinct(fields: seq<SchemaField>)
    requires ValidSchema(fields)
    ensures forall a, b :: 0 <= a < b < |fields| ==> fields[a].name != fields[b].name
  {
  }

  lemma KnownKeys(fields: seq<SchemaField>, entries: seq<Entry>, name: string)
    requires name in ValuesOf(fields, entries)
    ensures name in Names(fields)
  {
    hide ValuesOf;
    OnlyEntries(fields, entries, name);
  }

  lemma CarriedField(fields: seq<SchemaField>, entries: seq<Entry>, i: nat, v: Value)
    requires ValidSchema(fields) && RecordOf(fields, entries) && i < |fields| && Carried(entries, i, v)
    ensures FieldValue(ValuesOf(fields, entries), fields[i]) == Shows(v)
    ensures FieldProblem(ValuesOf(fields, entries), fields[i]) == []
  {
    hide ValidSchema, ValuesOf, Conforms, Coerce, Shows, ValueOf;
    Distinct(fields);
    var j :| 0 <= j < |entries| && entries[j].field == i && ValueOf(entries[j].wire) == v;
    ValuesByField(fields, entries, j);
    ConformingBelongs(entries[j].wire, fields[i].typ);
    OwnValuesDecode(v, fields[i]);
  }

  lemma AbsentField(fields: seq<SchemaField>, entries: seq<Entry>, i: nat)
    requires ValidSchema(fields) && i < |fields| && Absent(entries, i)
    ensures FieldValue(ValuesOf(fields, entries), fields[i]) == Nil
    ensures FieldProblem(ValuesOf(fields, entries), fields[i]) == [MissingField(fields[i].name)]
  {
    hide ValidSchema, ValuesOf, Coerce;
    Distinct(fields);
    if fields[i].name in ValuesOf(fields, entries) {
      OnlyEntries(fields, entries, fields[i].name);
    }
  }

  lemma {:induction false} ProblemIn(values: map<string, Value>, fields: seq<SchemaField>, p: Problem)
    ensures p in Problems(values, fields) <==> exists i :: 0 <= i < |fields| && p in FieldProblem(values, fields[i])
  {
    hide FieldProblem;
    if |fields| > 0 {
      var n := |fields| - 1;
      ProblemIn(values, fields[..n], p);
      assert forall i :: 0 <= i < n ==> fields[..n][i] == fields[i];
    }
  }

  lemma ProblemsOf(fields: seq<SchemaField>, entries: seq<Entry>, p: Problem)
    requires ValidSchema(fields) && RecordOf(fields, entries)
    ensures p in Problems(ValuesOf(fields, entries), fields) <==> Reported(fields, entries, p)
  {
    hide ValidSchema, RecordOf, ValuesOf, Problems, FieldProblem;
    var m := ValuesOf(fields, entries);
    ProblemIn(m, fields, p);
    forall i | 0 <= i < |fields|
      ensures p in FieldProblem(m, fields[i]) <==> Absent(entries, i) && p == MissingField(fields[i].name)
    {
      if Absent(entries, i) {
        AbsentField(fields, entries, i);
      } else {
        var j :| 0 <= j < |entries| && entries[j].field == i;
        assert Carried(entries, i, ValueOf(entries[j].wire));
        CarriedField(fields, entries, i, ValueOf(entries[j].wire));
      }
    }
  }

  /** The row a delivered record is stored under holds the values its ship packed. */
  lemma DeliveredAsPacked(fields: seq<SchemaField>, entries: seq<Entry>, pkt: TransmitPacket, env: Ether.Env)
    requires ValidSchema(fields) && RecordOf(fields, entries) && env.schema == Some(fields)
    requires pkt.payload == Bytes(EncodeRecord(fields, entries))
    requires Some(env.unpacked) == Unpack(ReadRecord(pkt.payload.data))
    ensures var content := Ether.RowOf(pkt, env).content;
      && content.Fields? && content.values.Keys == Names(fields)
      && (forall i, v :: 0 <= i < |fields| && Carried(entries, i, v) ==> content.values[fields[i].name] == Shows(v))
      && (forall i :: 0 <= i < |fields| && Absent(entries, i) ==> content.values[fields[i].name] == Nil)
      && (forall p :: p in content.problems <==> Reported(fields, entries, p))
  {
    hide ValidSchema, RecordOf, EncodeRecord, ReadRecord, ValuesOf, Decoded, Problems, Shows, Carried, Absent, Reported;
    RecordReadsBack(fields, entries);
    RecordDecodes(fields, entries);
  }

  // A map is what the decoder calls a record.
  function Unpack(r: Option<map<string, Value>>): Option<Unpacked> {
    match r case None => None case Some(m) => Some(Record(m))
  }
}
