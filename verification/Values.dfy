/**
 The path of a value from a request into SQLite and back (internal/server/query_convert.go and
 internal/sqlite/sqlite.go): conversion of parameters, the bind loop, the step loop, conversion of
 results.
 */
module Values {
  import opened Encoding
  import opened Wrappers

  /** Floating-point numbers, passed through unchanged. */
  type Float(==, !new)

  type Int64 = x: int | -0x8000_0000_0000_0000 <= x < 0x8000_0000_0000_0000

  /** vdl.SqliteValue: five optional fields. */
  datatype VdlValue = VdlValue(
    isNull: Option<bool>, integer: Option<Int64>, float: Option<Float>, text: Option<string>, blob: Option<string>)

  const UNSET: VdlValue := VdlValue(None, None, None, None, None)

  /** A native Go value; SQLite's five storage classes are the same. */
  datatype Native = Null | Integer(i: Int64) | Real(f: Float) | Text(s: string) | Blob(bytes: seq<Byte>)

  datatype ValueError = BadBlob | NotExactlyOne

  /** How many fields are set; null: false is not. */
  function FieldsSet(v: VdlValue): nat {
    Bit(v.isNull == Some(true)) + Bit(v.integer.Some?) + Bit(v.float.Some?) + Bit(v.text.Some?) + Bit(v.blob.Some?)
  }

  /** sqliteValueFromVDL: accepted exactly when one field is set, and a blob is valid base64; then the
      value is that of the one field. */
  method FromVDL(v: VdlValue) returns (r: Result<Native, ValueError>)
    ensures r.Ok? <==> FieldsSet(v) == 1 && (v.blob.Some? ==> Base64Decode(v.blob.value).Some?)
    ensures r == Err(BadBlob) <==> v.blob.Some? && Base64Decode(v.blob.value).None?
    ensures r.Ok? && v.isNull == Some(true) ==> r.value == Null
    ensures r.Ok? && v.integer.Some? ==> r.value == Integer(v.integer.value)
    ensures r.Ok? && v.float.Some? ==> r.value == Real(v.float.value)
    ensures r.Ok? && v.text.Some? ==> r.value == Text(v.text.value)
    ensures r.Ok? && v.blob.Some? ==> r.value == Blob(Base64Decode(v.blob.value).value)
    ensures r == Converted(v)
  {
    var fieldCount, converted := 0, Null;
    if v.isNull == Some(true) {
      fieldCount, converted := fieldCount + 1, Null;
    }
    if v.integer.Some? {
      fieldCount, converted := fieldCount + 1, Integer(v.integer.value);
    }
    if v.float.Some? {
      fieldCount, converted := fieldCount + 1, Real(v.float.value);
    }
    if v.text.Some? {
      fieldCount, converted := fieldCount + 1, Text(v.text.value);
    }
    if v.blob.Some? {
      fieldCount := fieldCount + 1;
      var decoded := Base64Decode(v.blob.value);
      if decoded.None? {
        return Err(BadBlob);
      }
      converted := Blob(decoded.value);
    }
    return if fieldCount != 1 then Err(NotExactlyOne) else Ok(converted);
  }

  /** What FromVDL returns, for use in statements about whole paths. */
  function Converted(v: VdlValue): Result<Native, ValueError> {
    if v.blob.Some? && Base64Decode(v.blob.value).None? then Err(BadBlob)
    else if FieldsSet(v) != 1 then Err(NotExactlyOne)
    else if v.integer.Some? then Ok(Integer(v.integer.value))
    else if v.float.Some? then Ok(Real(v.float.value))
    else if v.text.Some? then Ok(Text(v.text.value))
    else if v.blob.Some? then Ok(Blob(Base64Decode(v.blob.value).value))
    else Ok(Null)
  }

  /** sqliteValueToVDL on the types that a column can have. */
  function ToVDL(n: Native): VdlValue {
    match n
    case Null => UNSET.(isNull := Some(true))
    case Integer(i) => UNSET.(integer := Some(i))
    case Real(f) => UNSET.(float := Some(f))
    case Text(s) => UNSET.(text := Some(s))
    case Blob(bytes) => UNSET.(blob := Some(Base64Encode(bytes)))
  }

  /** BindDynamic on the types that a parameter can have: BindBlob binds NULL for no bytes. */
  function Bound(n: Native): Native {
    if n == Blob([]) then Null else n
  }

  const TWO_31: int := 0x8000_0000
  const TWO_32: int := 0x1_0000_0000

  /** sqlite3_column_int: the low 32 bits, sign-extended. */
  function ColumnInt(i: Int64): Int64 {
    var low := i % TWO_32;
    if low < TWO_31 then low else low - TWO_32
  }

  /** ColumnDynamic. */
  function ColumnDynamic(n: Native): Native {
    if n.Integer? then Integer(ColumnInt(n.i)) else n
  }

  /** A value selected back unchanged. */
  function Echo(n: Native): VdlValue {
    ToVDL(ColumnDynamic(Bound(n)))
  }

  predicate LowBitsAgree(i: int, j: int) {
    (j - i) % TWO_32 == 0
  }

  /** The integer comes back exactly when it fits 32 bits; otherwise what comes back is the one number
      that fits and agrees with it in the low 32 bits. */
  lemma IntegerEcho(i: Int64)
    ensures Echo(Integer(i)) == UNSET.(integer := Some(ColumnInt(i)))
    ensures ColumnInt(i) == i <==> -TWO_31 <= i < TWO_31
    ensures -TWO_31 <= ColumnInt(i) < TWO_31 && LowBitsAgree(i, ColumnInt(i))
    ensures forall j :: -TWO_31 <= j < TWO_31 && LowBitsAgree(i, j) ==> j == ColumnInt(i)
  {
    SameResidue(ColumnInt(i), i);
    forall j | -TWO_31 <= j < TWO_31 && LowBitsAgree(i, j) ensures j == ColumnInt(i) {
      SameResidue(j, i);
    }
  }

  lemma SameResidue(j: int, i: int)
    ensures LowBitsAgree(i, j) <==> j % TWO_32 == i % TWO_32
  {
    var q, r := (j - i) / TWO_32, (j - i) % TWO_32;
    assert j - i == q * TWO_32 + r;
  }

  /** Every accepted value comes back as an accepted one.  Text, floats and NULL come back as they
      are; a blob comes back with the same bytes, or as NULL if it has none. */
  lemma ValueEcho(v: VdlValue)
    requires Converted(v).Ok?
    ensures var n := Converted(v).value;
            && Converted(Echo(n)) == Ok(ColumnDynamic(Bound(n)))
            && (Converted(Echo(n)) == Ok(n) <==> n != Blob([]) && (n.Integer? ==> -TWO_31 <= n.i < TWO_31))
            && (n == Blob([]) ==> Echo(n) == UNSET.(isNull := Some(true)))
            && (n.Blob? && n.bytes != [] ==> Base64Decode(Echo(n).blob.value) == Some(n.bytes))
  {
    var n := Converted(v).value;
    if n.Blob? {
      Base64RoundTrip(n.bytes);
    } else if n.Integer? {
      IntegerEcho(n.i);
    }
    hide Base64Encode, Base64Decode;
  }
}
