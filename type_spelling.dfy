/** The type mapper of the raw C generator (`CodeGenRawC::PrintType`): a data
    type descriptor (type code, bit width, lane count) is spelled as a C type,
    or generation stops with "Cannot convert type". */
module TypeSpelling {
  import opened Diagnostics
  import opened Text

  /** DLDataType type codes. `OtherCode` stands for every code this generator
      has no rule for (bfloat16, the 8-bit float formats, custom types). */
  datatype TypeCode = Int | UInt | Float | Handle | OtherCode(code: nat)

  /** A data type descriptor; lanes == 1 is a scalar. */
  datatype DataType = DataType(code: TypeCode, bits: nat, lanes: int)

  /** `DataType::Void()` is the handle code with zero bits and zero lanes. */
  predicate IsVoid(t: DataType) {
    t.code == Handle && t.bits == 0 && t.lanes == 0
  }

  /** `is_handle()` excludes void. */
  predicate IsHandle(t: DataType) {
    t.code == Handle && !IsVoid(t)
  }

  /** `DataType::Bool()`: a scalar 1-bit unsigned integer. */
  const Bool := DataType(UInt, 1, 1)

  predicate IsIntCode(c: TypeCode) {
    c == Int || c == UInt
  }

  /** The descriptors this generator can spell, stated per rule rather than
      per branch of the printer. */
  predicate Supported(t: DataType) {
    if t.code == Handle then IsVoid(t) || t.lanes == 1
    else if t == Bool then true
    else
      && ((t.code == Float && t.bits in {16, 32, 64}) || (IsIntCode(t.code) && t.bits in {1, 8, 16, 32, 64}))
      && (t.lanes == 1 || 2 <= t.lanes <= 16)
  }

  function IntSpelling(bits: nat): Option<string> {
    if bits == 8 then Some("int8_t")
    else if bits == 16 then Some("int16_t")
    else if bits == 32 then Some("int32_t")
    else if bits == 64 then Some("int64_t")
    else if bits == 1 then Some("int32_t")  // no 1-bit C integer: widen to 32 bits
    else None
  }

  /** The scalar spelling of a float or integer descriptor, before lanes. */
  function BaseSpelling(t: DataType): Option<string> {
    match t.code
    case Float =>
      if t.bits == 16 then Some("half")
      else if t.bits == 32 then Some("float")
      else if t.bits == 64 then Some("double")
      else None
    case Int => IntSpelling(t.bits)
    case UInt =>
      (match IntSpelling(t.bits)
       case Some(s) => Some("u" + s)
       case None => None)
    case _ => None
  }

  /** `CodeGenRawC::PrintType`. */
  function PrintType(t: DataType): (r: Result<string>)
    ensures r.Success? <==> Supported(t)
    ensures r.Failure? ==> r.error == UnsupportedType
    ensures IsHandle(t) ==> (r.Success? <==> t.lanes == 1) && (r.Success? ==> r.value == "void*")
    ensures IsVoid(t) ==> r == Success("void")
    ensures r == Success("bool") <==> t == Bool
  {
    if IsHandle(t) then
      if t.lanes == 1 then Success("void*") else Failure(UnsupportedType)
    else if IsVoid(t) then Success("void")
    else if t == Bool then Success("bool")
    else
      match BaseSpelling(t)
      case None => Failure(UnsupportedType)
      case Some(base) =>
        assert base[0] != 'b';
        if t.lanes == 1 then Success(base)
        else if 2 <= t.lanes <= 16 then
          assert (base + Decimal(t.lanes))[0] == base[0];
          Success(base + Decimal(t.lanes))
        else Failure(UnsupportedType)
  }

  // ---------------------------------------------------------------------
  // What a spelling denotes, and a parser that recovers it.

  datatype NumBase = Half | Single | Double | Fixed(unsigned: bool, width: nat)

  /** The C type a spelling names. */
  datatype CType = VoidPtr | Void | CBool | Numeric(base: NumBase, lanes: int)

  /** The C type a supported descriptor denotes: every handle is `void*`, and
      1-bit integers other than Bool are 32-bit integers. */
  function CTypeOf(t: DataType): CType
    requires Supported(t)
  {
    if IsHandle(t) then VoidPtr
    else if IsVoid(t) then Void
    else if t == Bool then CBool
    else if t.code == Float then
      Numeric(if t.bits == 16 then Half else if t.bits == 32 then Single else Double, t.lanes)
    else Numeric(Fixed(t.code == UInt, if t.bits == 1 then 32 else t.bits), t.lanes)
  }

  function ParseBase(p: string): Option<NumBase> {
    if p == "half" then Some(Half)
    else if p == "float" then Some(Single)
    else if p == "double" then Some(Double)
    else if p == "int8_t" then Some(Fixed(false, 8))
    else if p == "int16_t" then Some(Fixed(false, 16))
    else if p == "int32_t" then Some(Fixed(false, 32))
    else if p == "int64_t" then Some(Fixed(false, 64))
    else if p == "uint8_t" then Some(Fixed(true, 8))
    else if p == "uint16_t" then Some(Fixed(true, 16))
    else if p == "uint32_t" then Some(Fixed(true, 32))
    else if p == "uint64_t" then Some(Fixed(true, 64))
    else None
  }

  /** Reads a C type spelling: a base name, then optionally a lane count in
      [2, 16] written in decimal without a leading zero. */
  function ParseCType(s: string): Option<CType> {
    if s == "void*" then Some(VoidPtr)
    else if s == "void" then Some(Void)
    else if s == "bool" then Some(CBool)
    else
      var k := TrailingDigitCount(s);
      var digits := s[|s| - k..];
      match ParseBase(s[..|s| - k])
      case None => None
      case Some(b) =>
        if digits == [] then Some(Numeric(b, 1))
        else if digits[0] != '0' && 2 <= ParseDecimal(digits) <= 16 then Some(Numeric(b, ParseDecimal(digits)))
        else None
  }

  /** Every base spelling ends in a non-digit and starts with neither `v` nor
      `b`, so it can neither absorb lane digits nor be mistaken for `void`,
      `void*` or `bool`. */
  lemma BaseSpellingShape(base: string)
    requires ParseBase(base).Some?
    ensures |base| > 0 && !IsDigit(base[|base| - 1]) && base[0] != 'v' && base[0] != 'b'
  {
  }

  lemma ParseNumericSpelling(base: string, b: NumBase, lanes: int)
    requires ParseBase(base) == Some(b)
    requires lanes == 1 || 2 <= lanes <= 16
    ensures ParseCType(if lanes == 1 then base else base + Decimal(lanes)) == Some(Numeric(b, lanes))
  {
    BaseSpellingShape(base);
    if lanes == 1 {
      ParseScalarSpelling(base, b);
    } else {
      ParseVectorSpelling(base, b, lanes);
    }
  }

  lemma ParseScalarSpelling(base: string, b: NumBase)
    requires ParseBase(base) == Some(b)
    requires |base| > 0 && !IsDigit(base[|base| - 1]) && base[0] != 'v' && base[0] != 'b'
    ensures ParseCType(base) == Some(Numeric(b, 1))
  {
    TrailingDigitsAfterWord(base, "");
    assert base + "" == base;
  }

  lemma ParseVectorSpelling(base: string, b: NumBase, lanes: int)
    requires ParseBase(base) == Some(b) && 2 <= lanes <= 16
    requires |base| > 0 && !IsDigit(base[|base| - 1]) && base[0] != 'v' && base[0] != 'b'
    ensures ParseCType(base + Decimal(lanes)) == Some(Numeric(b, lanes))
  {
    var d := Decimal(lanes);
    var s := base + d;
    assert s[0] == base[0];
    TrailingDigitsAfterWord(base, d);
    ParseDecimalOfDecimal(lanes);
    assert d != [] && d[0] != '0';
  }

  /** Parsing a printed spelling recovers the C type the descriptor denotes:
      the printer loses nothing beyond what CTypeOf identifies. */
  lemma ParsePrintType(t: DataType)
    requires Supported(t)
    ensures PrintType(t).Success? && ParseCType(PrintType(t).value) == Some(CTypeOf(t))
  {
    if !IsHandle(t) && !IsVoid(t) && t != Bool {
      var base := BaseSpelling(t).value;
      var c := CTypeOf(t);
      if t.code == UInt {
        assert base == "u" + IntSpelling(t.bits).value;
        if t.bits == 8 { assert base == "uint8_t"; }
        else if t.bits == 16 { assert base == "uint16_t"; }
        else if t.bits == 64 { assert base == "uint64_t"; }
        else { assert base == "uint32_t"; }
      }
      assert ParseBase(base) == Some(c.base);
      ParseNumericSpelling(base, c.base, t.lanes);
    }
  }

  /** Two supported descriptors print the same spelling exactly when they are
      equal, both handles, or the same integer kind and lanes with widths
      1 and 32 (Bool excepted): the mapping is not injective, and this is all
      the aliasing there is. */
  lemma PrintTypeCollisions(a: DataType, c: DataType)
    requires Supported(a) && Supported(c)
    ensures PrintType(a) == PrintType(c) <==>
      a == c || (IsHandle(a) && IsHandle(c)) || IntWidthAlias(a, c)
  {
    if PrintType(a) == PrintType(c) {
      ParsePrintType(a);
      ParsePrintType(c);
      assert CTypeOf(a) == CTypeOf(c);
    }
  }

  predicate IntWidthAlias(a: DataType, c: DataType) {
    && a.code == c.code && IsIntCode(a.code) && a.lanes == c.lanes
    && a != Bool && c != Bool
    && a.bits in {1, 32} && c.bits in {1, 32}
  }

  /** A 1-bit integer prints like the 32-bit integer of the same signedness and
      lanes (except the scalar unsigned one, which is Bool). */
  lemma Int1PrintsAsInt32(code: TypeCode, lanes: int)
    requires IsIntCode(code) && DataType(code, 1, lanes) != Bool
    ensures PrintType(DataType(code, 1, lanes)) == PrintType(DataType(code, 32, lanes))
  {
  }

  /** Integer spellings start with `u` exactly for unsigned descriptors. */
  lemma UnsignedPrefix(t: DataType)
    requires IsIntCode(t.code) && t != Bool && Supported(t)
    ensures PrintType(t).value[0] == 'u' <==> t.code == UInt
  {
    var base := BaseSpelling(t).value;
    if t.lanes != 1 {
      assert (base + Decimal(t.lanes))[0] == base[0];
    }
  }

  /** A vector of 2 to 16 lanes prints as its scalar spelling immediately
      followed by the decimal lane count. */
  lemma VectorSpelling(t: DataType)
    requires t.code != Handle && 2 <= t.lanes <= 16
    requires DataType(t.code, t.bits, 1) != Bool
    ensures PrintType(t).Success? <==> PrintType(DataType(t.code, t.bits, 1)).Success?
    ensures PrintType(t).Success? ==>
      PrintType(t).value == PrintType(DataType(t.code, t.bits, 1)).value + Decimal(t.lanes)
  {
  }
}
