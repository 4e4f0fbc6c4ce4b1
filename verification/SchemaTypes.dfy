/** What each declared type name stands for, name by name: sizes, value ranges and coercion. */
module SchemaTypes {
  import opened Protocol
  import opened Decimal
  import opened Schema

  // ---- Names ------------------------------------------------------------------------------------

  predicate IsText(t: string, n: nat) { t == "string_" + Digits(n) }

  lemma {:induction false} TextNumber(t: string, n: nat)
    requires IsText(t, n)
    ensures |t| > 7 && t[..7] == "string_" && t[7..] == Digits(n) && Number(t[7..]) == n
  {
    DigitsNumber(n);
    assert t[7..] == Digits(n);
  }

  lemma TextLengthIs(t: string, n: nat)
    ensures TextLength(t) == Some(n) <==> 1 <= n <= 999 && IsText(t, n)
  {
    hide TextLength, IsText;
    if 1 <= n <= 999 && IsText(t, n) { TextHasLength(t, n); }
    if TextLength(t) == Some(n) { LengthIsText(t, n); }
  }

  lemma TextHasLength(t: string, n: nat)
    requires 1 <= n <= 999 && IsText(t, n)
    ensures TextLength(t) == Some(n)
  {
    hide Digits, Number, IsDigit;
    TextNumber(t, n);
    DigitsNumber(n);
    ShortNumber(n);
    var d := Digits(n);
    assert forall i :: 7 <= i < |t| ==> t[i] == d[i - 7];
    assert t[7] == d[0];
    FirstDigit(d);
  }

  lemma FirstDigit(d: string)
    requires Canonical(d)
    ensures '1' <= d[0] <= '9' && forall i :: 0 <= i < |d| ==> IsDigit(d[i])
  {
    assert IsDigit(d[0]);
  }

  lemma LengthIsText(t: string, n: nat)
    requires TextLength(t) == Some(n)
    ensures 1 <= n <= 999 && IsText(t, n)
  {
    hide Digits, Number;
    var u := t[7..];
    assert forall i :: 1 <= i < |u| ==> u[i] == t[i + 7];
    NumberDigits(u);
    ShortNumber(n);
    assert t == "string_" + u;
  }

  // The eleven fixed type names.
  predicate IsFixed(t: string) {
    t in {"bool", "float32", "float64", "int8", "uint8", "int16", "uint16", "int32", "uint32", "int64", "uint64"}
  }

  predicate IsIntName(t: string) { t in {"int8", "uint8", "int16", "uint16", "int32", "uint32", "int64", "uint64"} }

  lemma FixedAreNoTexts(t: string, n: nat)
    requires IsFixed(t)
    ensures !IsText(t, n) && TextLength(t) == None
  {
    if IsText(t, n) { TextNumber(t, n); }
    assert |t| <= 7;
  }

  // The sizes of the type table.
  function FixedSize(t: string): nat
    requires IsFixed(t)
  {
    if t == "bool" then 1 else if t == "float32" then 4 else if t == "float64" then 8
    else if t == "int8" || t == "uint8" then 1 else if t == "int16" || t == "uint16" then 2
    else if t == "int32" || t == "uint32" then 4 else 8
  }

  /** A type is known iff it is one of the eleven names or string_n for n from 1 to 242 without a leading zero; the
      names have the sizes of the table, and string_n has n. */
  lemma KnownTypes(t: string)
    ensures IsFixed(t) ==> FieldByteSize(t) == Some(FixedSize(t))
    ensures forall n :: 1 <= n <= 242 && IsText(t, n) ==> FieldByteSize(t) == Some(n)
    ensures FieldByteSize(t).Some? <==> IsFixed(t) || exists n :: 1 <= n <= 242 && IsText(t, n)
  {
    if IsFixed(t) { FixedAreNoTexts(t, 0); }
    forall n | 1 <= n <= 242 && IsText(t, n) ensures FieldByteSize(t) == Some(n) && KindOf(t) == Text(n) {
      TextLengthIs(t, n);
      if IsFixed(t) { FixedAreNoTexts(t, n); }
    }
    if FieldByteSize(t).Some? && !IsFixed(t) {
      var n := TextLength(t).value;
      TextLengthIs(t, n);
    }
  }

  // ASCII codes.
  predicate LetterCode(n: int) { 65 <= n <= 90 || 97 <= n <= 122 }
  predicate NameCode(n: int) { LetterCode(n) || 48 <= n <= 57 || n == 95 }

  /** A field name is a letter and up to 29 more letters, digits and underscores. */
  lemma NameRule(s: string)
    ensures ValidName(s) <==>
      s != "" && |s| <= 30 && LetterCode(s[0] as int) && forall c :: c in s ==> NameCode(c as int)
  {
    if ValidName(s) {
      forall c | c in s ensures NameCode(c as int) {
        var i :| 0 <= i < |s| && s[i] == c;
        if i == 0 { assert IsLetter(c); }
      }
    } else if s != "" && |s| <= 30 && LetterCode(s[0] as int) && forall c :: c in s ==> NameCode(c as int) {
      forall i | 1 <= i < |s| ensures IsLetter(s[i]) || IsDigit(s[i]) || s[i] == '_' { assert s[i] in s; }
      assert false;
    }
  }

  // ---- Values -----------------------------------------------------------------------------------

  // The numbers of an integer type.
  predicate InRange(t: string, v: int)
    requires IsIntName(t)
  {
    if t == "int8" then -128 <= v <= 127 else if t == "uint8" then 0 <= v <= 255
    else if t == "int16" then -32768 <= v <= 32767 else if t == "uint16" then 0 <= v <= 65535
    else if t == "int32" then -2147483648 <= v <= 2147483647 else if t == "uint32" then 0 <= v <= 4294967295
    else if t == "int64" then -9223372036854775808 <= v <= 9223372036854775807
    else 0 <= v <= 18446744073709551615
  }

  // The values of a type.
  ghost predicate Belongs(v: Value, t: string) {
    || (t == "bool" && v.Bool?)
    || (t in {"float32", "float64"} && v.Real?)
    || (IsIntName(t) && ((v.Signed? && InRange(t, v.i)) || (v.Unsigned? && InRange(t, v.u))))
    || exists n :: 1 <= n <= 242 && IsText(t, n) && v.Str? && |v.s| <= n
  }

  // What a value of its type is shown as: itself, but for the sign of unsigned numbers from 2^63 on.
  function Shows(v: Value): Value {
    match v
    case Unsigned(u) => Signed(if u < 9223372036854775808 then u else u - 18446744073709551616)
    case _ => v
  }

  predicate IsWhole(x: real, n: int) { x == n as real }
  predicate InSixtyFour(n: int) { -9223372036854775808 <= n < 9223372036854775808 }

  lemma KindIs(t: string)
    ensures t == "bool" ==> KindOf(t) == Flag
    ensures t in {"float32", "float64"} ==> KindOf(t).Float?
    ensures IsIntName(t) ==> KindOf(t).Integer?
    ensures forall n :: 1 <= n <= 999 && IsText(t, n) ==> KindOf(t) == Text(n)
    ensures !IsFixed(t) && (forall n :: 1 <= n <= 999 ==> !IsText(t, n)) ==> KindOf(t) == Unknown
  {
    if IsFixed(t) { FixedAreNoTexts(t, 0); }
    forall n | 1 <= n <= 999 && IsText(t, n) ensures KindOf(t) == Text(n) {
      TextLengthIs(t, n);
      if IsFixed(t) { FixedAreNoTexts(t, n); }
    }
    if TextLength(t).Some? { TextLengthIs(t, TextLength(t).value); }
    hide TextLength, IsText;
  }

  /** A bool field shows a bool and takes nothing else; text of at most n characters shows itself, longer text is too
      long, anything else is no text; a float field shows the number given in whatever numeric form. */
  lemma CoercionByType(v: Value, f: SchemaField)
    ensures f.typ == "bool" ==> Coerce(v, f) == if v.Bool? then Ok(v) else Bad(ExpectedBool(f.name))
    ensures forall n :: 1 <= n <= 999 && IsText(f.typ, n) ==>
      Coerce(v, f) == if !v.Str? then Bad(ExpectedString(f.name)) else if |v.s| > n then Bad(TooLong(f.name)) else Ok(v)
    ensures f.typ in {"float32", "float64"} ==>
      && (v.Real? ==> Coerce(v, f) == Ok(v))
      && (v.Signed? ==> Coerce(v, f) == Ok(Real(v.i as real)))
      && (v.Unsigned? ==> Coerce(v, f) == Ok(Real(v.u as real)))
      && (!v.Real? && !v.Signed? && !v.Unsigned? ==> Coerce(v, f) == Bad(ExpectedNumber(f.name)))
  {
    hide KindOf, IsText, IsIntName, IsFixed;
    KindIs(f.typ);
  }

  // Integer names, and every name that means nothing.
  ghost predicate TakenForInteger(t: string) {
    IsIntName(t) || (!IsFixed(t) && forall n :: 1 <= n <= 999 ==> !IsText(t, n))
  }

  /** An integer field, or one of an unknown type, shows integers and whole reals below 2^63, wraps unsigned numbers
      from there on, and takes nothing else. */
  lemma IntegerCoercion(v: Value, f: SchemaField)
    requires TakenForInteger(f.typ)
    ensures v.Signed? || v.Unsigned? ==> Coerce(v, f) == Ok(Shows(v))
    ensures v.Real? ==> forall n :: IsWhole(v.x, n) ==>
      Coerce(v, f) == if InSixtyFour(n) then Ok(Signed(n)) else Bad(ExpectedInteger(f.name))
    ensures v.Real? && (forall n :: !IsWhole(v.x, n)) ==> Coerce(v, f) == Bad(ExpectedInteger(f.name))
    ensures !v.Real? && !v.Signed? && !v.Unsigned? ==> Coerce(v, f) == Bad(ExpectedInteger(f.name))
  {
    hide KindOf, IsText, IsIntName, IsFixed;
    KindIs(f.typ);
    if v.Real? { assert IsWhole(v.x, v.x.Floor) <==> v.x == v.x.Floor as real; }
  }

  /** Every value of a field's type decodes to itself with no problem. */
  lemma OwnValuesDecode(v: Value, f: SchemaField)
    requires Belongs(v, f.typ)
    ensures Coerce(v, f) == Ok(Shows(v))
  {
    hide Coerce, IsText;
    CoercionByType(v, f);
    if IsIntName(f.typ) { IntegerCoercion(v, f); }
  }
}
