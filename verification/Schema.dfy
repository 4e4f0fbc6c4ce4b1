/** domain/schema.go: the dynamic payload schema, its size estimate and the lenient edge decoder. */
module Schema {
  import opened Protocol
  import opened Decimal

  const MAX_SCHEMA_FIELDS := 32
  const MAX_STRING_SIZE := 242
  const TWO63 := 0x8000_0000_0000_0000
  const TWO64 := 0x1_0000_0000_0000_0000

  datatype SchemaField = SchemaField(name: string, typ: string)

  // What a type name means; the regular expression ^string_([1-9][0-9]{0,2})$ gives Text.
  datatype Kind = Flag | Float(bytes: nat) | Integer(bytes: nat) | Text(max: nat) | Unknown

  function TextLength(t: string): Option<nat> {
    if 8 <= |t| <= 10 && t[..7] == "string_" && '1' <= t[7] <= '9' && forall i :: 8 <= i < |t| ==> IsDigit(t[i])
    then Some(Number(t[7..])) else None
  }

  function KindOf(t: string): Kind {
    if t == "bool" then Flag
    else if t == "float32" then Float(4) else if t == "float64" then Float(8)
    else if t == "int8" || t == "uint8" then Integer(1) else if t == "int16" || t == "uint16" then Integer(2)
    else if t == "int32" || t == "uint32" then Integer(4) else if t == "int64" || t == "uint64" then Integer(8)
    else match TextLength(t) case None => Unknown case Some(n) => Text(n)
  }

  // None stands for the error return.
  function FieldByteSize(t: string): Option<nat> {
    match KindOf(t)
    case Flag => Some(1) case Float(n) => Some(n) case Integer(n) => Some(n)
    case Text(n) => if 1 <= n <= MAX_STRING_SIZE then Some(n) else None
    case Unknown => None
  }

  predicate IsLetter(c: char) { 'a' <= c <= 'z' || 'A' <= c <= 'Z' }

  // ^[a-zA-Z][a-zA-Z0-9_]{0,29}$
  predicate ValidName(s: string) {
    1 <= |s| <= 30 && IsLetter(s[0]) && forall i :: 1 <= i < |s| ==> IsLetter(s[i]) || IsDigit(s[i]) || s[i] == '_'
  }

  predicate ValidSchema(fields: seq<SchemaField>) {
    && 1 <= |fields| <= MAX_SCHEMA_FIELDS
    && (forall i :: 0 <= i < |fields| ==> ValidName(fields[i].name) && FieldByteSize(fields[i].typ).Some?)
    && (forall i, j :: 0 <= i < j < |fields| ==> fields[i].name != fields[j].name)
  }

  datatype FieldFault = InvalidName | DuplicateName | InvalidType
  datatype SchemaFault = NoFields | TooManyFields | AtField(at: nat, fault: FieldFault)

  // What is reported of field i: a bad name first, then a repeated one, then a bad type.
  ghost predicate FaultHolds(fields: seq<SchemaField>, i: nat, fault: FieldFault)
    requires i < |fields|
  {
    var repeated := exists j :: 0 <= j < i && fields[j].name == fields[i].name;
    match fault
    case InvalidName => !ValidName(fields[i].name)
    case DuplicateName => ValidName(fields[i].name) && repeated
    case InvalidType => ValidName(fields[i].name) && !repeated && FieldByteSize(fields[i].typ) == None
  }

  /** ValidateSchemaFields: no fault exactly for valid schemas; otherwise the first faulty field is named. */
  method ValidateSchemaFields(fields: seq<SchemaField>) returns (r: Option<SchemaFault>)
    ensures r == None <==> ValidSchema(fields)
    ensures r.Some? && r.value.AtField? ==>
      && r.value.at < |fields| && FaultHolds(fields, r.value.at, r.value.fault)
      && (r.value.at > 0 ==> ValidSchema(fields[..r.value.at]))
    ensures r == Some(NoFields) <==> |fields| == 0
    ensures r == Some(TooManyFields) <==> |fields| > 32
  {
    if |fields| == 0 { return Some(NoFields); }
    if |fields| > MAX_SCHEMA_FIELDS { return Some(TooManyFields); }
    var seen: set<string> := {};
    for i := 0 to |fields|
      invariant seen == set j | 0 <= j < i :: fields[j].name
      invariant forall j :: 0 <= j < i ==> ValidName(fields[j].name) && FieldByteSize(fields[j].typ).Some?
      invariant forall j, k :: 0 <= j < k < i ==> fields[j].name != fields[k].name
    {
      var f := fields[i];
      if !ValidName(f.name) { return Some(AtField(i, InvalidName)); }
      if f.name in seen { return Some(AtField(i, DuplicateName)); }
      seen := seen + {f.name};
      if FieldByteSize(f.typ) == None { return Some(AtField(i, InvalidType)); }
    }
    r := None;
  }

  // ---- Size estimate ---------------------------------------------------------------------------

  // Key header and bytes, then marker and value; an unknown type contributes only its key.
  function FieldCost(f: SchemaField): int {
    1 + |f.name| + match FieldByteSize(f.typ)
                   case None => 0
                   case Some(n) => if KindOf(f.typ).Text? then 2 + n else 1 + n
  }

  function Estimate(fields: seq<SchemaField>): int {
    if |fields| == 0 then 3 else Estimate(fields[..|fields| - 1]) + FieldCost(fields[|fields| - 1])
  }

  method EstimatePackedBytes(fields: seq<SchemaField>) returns (total: int)
    ensures total == Estimate(fields)
  {
    total := 3;
    for i := 0 to |fields|
      invariant total == Estimate(fields[..i])
    {
      assert fields[..i + 1][..i] == fields[..i];
      total := total + 1 + |fields[i].name|;
      var size := FieldByteSize(fields[i].typ);
      if size == None { continue; }
      total := total + (if KindOf(fields[i].typ).Text? then 2 else 1) + size.value;
    }
    assert fields[..|fields|] == fields;
  }

  // The dashboard's own estimate (frontend/src/lib/lora.ts) skips an unknown type together with its key.
  function DashboardEstimate(fields: seq<SchemaField>): int {
    if |fields| == 0 then 3
    else DashboardEstimate(fields[..|fields| - 1])
         + (if FieldByteSize(fields[|fields| - 1].typ) == None then 0 else FieldCost(fields[|fields| - 1]))
  }

  /** The dashboard's estimate mirrors the server's exactly when every type is known; otherwise it is smaller. */
  lemma {:induction false} EstimatesAgreeIff(fields: seq<SchemaField>)
    ensures DashboardEstimate(fields) <= Estimate(fields)
    ensures DashboardEstimate(fields) == Estimate(fields) <==> forall i :: 0 <= i < |fields| ==>
      FieldByteSize(fields[i].typ).Some?
  {
    if |fields| > 0 {
      EstimatesAgreeIff(fields[..|fields| - 1]);
      assert forall i :: 0 <= i < |fields| - 1 ==> fields[..|fields| - 1][i] == fields[i];
    }
  }

  // ---- Lenient decoding --------------------------------------------------------------------------

  // A decoded MessagePack value by its Go dynamic type: any signed, unsigned or floating width is one case each.
  datatype Value = Nil | Bool(b: bool) | Signed(i: int) | Unsigned(u: int) | Real(x: real) | Str(s: string) | Other

  datatype Problem = MissingField(name: string) | ExpectedString(name: string) | TooLong(name: string)
                   | ExpectedBool(name: string) | ExpectedNumber(name: string) | ExpectedInteger(name: string)
                   | DecodeFailed
  datatype Coercion = Ok(v: Value) | Bad(p: Problem)

  function ToFloat(v: Value): Option<real> {
    match v
    case Real(x) => Some(x) case Signed(i) => Some(i as real) case Unsigned(u) => Some(u as real)
    case _ => None
  }

  // int64 conversion: unsigned values of 2^63 and more wrap, floats must be integral and in range.
  function ToInt64(v: Value): Option<int> {
    match v
    case Signed(i) => Some(i)
    case Unsigned(u) => Some(if u < TWO63 then u else u - TWO64)
    case Real(x) => if -TWO63 as real <= x < TWO63 as real && x == x.Floor as real then Some(x.Floor) else None
    case _ => None
  }

  // Every type name that is not string_N, bool or a float is treated as an integer.
  function Coerce(v: Value, f: SchemaField): Coercion {
    match KindOf(f.typ)
    case Text(n) => if !v.Str? then Bad(ExpectedString(f.name)) else if |v.s| > n then Bad(TooLong(f.name)) else Ok(v)
    case Flag => if v.Bool? then Ok(v) else Bad(ExpectedBool(f.name))
    case Float(_) => (match ToFloat(v) case None => Bad(ExpectedNumber(f.name)) case Some(x) => Ok(Real(x)))
    case _ => (match ToInt64(v) case None => Bad(ExpectedInteger(f.name)) case Some(n) => Ok(Signed(n)))
  }

  // What the MessagePack library makes of the bytes.
  datatype Unpacked = Record(values: map<string, Value>) | Positional(items: seq<Value>) | Garbage

  function Named(items: seq<Value>, fields: seq<SchemaField>): map<string, Value> {
    if |fields| == 0 then map[]
    else
      var n := |fields| - 1;
      var m := Named(items, fields[..n]);
      if n < |items| then m[fields[n].name := items[n]] else m
  }

  // One field's outcome: the value shown, and at most one problem.
  function FieldValue(values: map<string, Value>, f: SchemaField): Value {
    if f.name !in values then Nil
    else match Coerce(values[f.name], f) case Ok(v) => v case Bad(_) => values[f.name]
  }

  function FieldProblem(values: map<string, Value>, f: SchemaField): seq<Problem> {
    if f.name !in values then [MissingField(f.name)]
    else match Coerce(values[f.name], f) case Ok(_) => [] case Bad(p) => [p]
  }

  function Shown(values: map<string, Value>, fields: seq<SchemaField>): map<string, Value> {
    if |fields| == 0 then map[]
    else Shown(values, fields[..|fields| - 1])[fields[|fields| - 1].name := FieldValue(values, fields[|fields| - 1])]
  }

  function Problems(values: map<string, Value>, fields: seq<SchemaField>): seq<Problem> {
    if |fields| == 0 then []
    else Problems(values, fields[..|fields| - 1]) + FieldProblem(values, fields[|fields| - 1])
  }

  function Names(fields: seq<SchemaField>): set<string> { set i | 0 <= i < |fields| :: fields[i].name }

  function Decoded(values: map<string, Value>, fields: seq<SchemaField>): map<string, Value> {
    Shown(values, fields) + Extras(values, Names(fields), values.Keys)
  }

  method NamePositional(items: seq<Value>, fields: seq<SchemaField>) returns (values: map<string, Value>)
    ensures values == Named(items, fields)
  {
    values := map[];
    for i := 0 to |fields|
      invariant values == Named(items, fields[..i])
    {
      assert fields[..i + 1][..i] == fields[..i];
      if i < |items| { values := values[fields[i].name := items[i]]; }
    }
    assert fields[..|fields|] == fields;
  }

  /** DecodePayload: None is the decode failure; otherwise the shown values and the problems, in field order. */
  method DecodePayload(raw: Unpacked, fields: seq<SchemaField>)
      returns (decoded: Option<map<string, Value>>, problems: seq<Problem>)
    ensures raw.Garbage? <==> decoded == None
    ensures raw.Garbage? ==> problems == [DecodeFailed]
    ensures raw.Record? ==> decoded == Some(Decoded(raw.values, fields)) && problems == Problems(raw.values, fields)
    ensures raw.Positional? ==>
      decoded == Some(Decoded(Named(raw.items, fields), fields))
        && problems == Problems(Named(raw.items, fields), fields)
  {
    decoded, problems := None, [];
    var values;
    match raw {
      case Garbage => problems := [DecodeFailed]; return;
      case Record(m) => values := m;
      case Positional(items) => values := NamePositional(items, fields);
    }
    var shown, known;
    shown, known, problems := CoerceFields(values, fields);
    shown := KeepExtras(values, known, shown);
    decoded := Some(shown);
  }

  // First loop of DecodePayload: the schema's fields, in order.
  method CoerceFields(values: map<string, Value>, fields: seq<SchemaField>)
    returns (shown: map<string, Value>, known: set<string>, problems: seq<Problem>)
    ensures shown == Shown(values, fields) && problems == Problems(values, fields) && known == Names(fields)
  {
    shown, known, problems := map[], {}, [];
    for i := 0 to |fields|
      invariant shown == Shown(values, fields[..i]) && problems == Problems(values, fields[..i])
        && known == Names(fields[..i])
    {
      assert fields[..i + 1][..i] == fields[..i];
      assert Names(fields[..i + 1]) == Names(fields[..i]) + {fields[i].name};
      hide Names;
      var f := fields[i];
      known := known + {f.name};
      if f.name !in values {
        problems := problems + [MissingField(f.name)];
        shown := shown[f.name := Nil];
        continue;
      }
      var c := Coerce(values[f.name], f);
      if c.Bad? {
        problems := problems + [c.p];
        shown := shown[f.name := values[f.name]];
        continue;
      }
      shown := shown[f.name := c.v];
    }
    assert fields[..|fields|] == fields;
  }

  function Extras(values: map<string, Value>, known: set<string>, keys: set<string>): map<string, Value> {
    map k | k in keys && k in values && k !in known :: values[k]
  }

  lemma OneMoreExtra(shown0: map<string, Value>, values: map<string, Value>, known: set<string>, keys: set<string>,
      k: string)
    requires k in values && k !in keys
    ensures shown0 + Extras(values, known, keys + {k})
      == if k in known then shown0 + Extras(values, known, keys)
        else (shown0 + Extras(values, known, keys))[k := values[k]]
  {
  }

  // Second loop of DecodePayload: payload keys the schema does not know.
  method KeepExtras(values: map<string, Value>, known: set<string>, shown0: map<string, Value>)
      returns (shown: map<string, Value>)
    ensures shown == shown0 + Extras(values, known, values.Keys)
  {
    shown := shown0;
    var rest := values.Keys;
    assert Extras(values, known, values.Keys - rest) == map[];
    hide Extras;
    while rest != {}
      invariant rest <= values.Keys
      invariant shown == shown0 + Extras(values, known, values.Keys - rest)
      decreases |rest|
    {
      var k :| k in rest;
      OneMoreExtra(shown0, values, known, values.Keys - rest, k);
      assert values.Keys - (rest - {k}) == (values.Keys - rest) + {k};
      rest := rest - {k};
      if k !in known { shown := shown[k := values[k]]; }
    }
    assert values.Keys - {} == values.Keys;
  }
}
