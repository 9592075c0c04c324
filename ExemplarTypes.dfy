/**
 * Exemplar type numbers: the fixed name table, the number parser used for
 * the `-exemplar-log:<n>` argument, and the name lookup
 * (src/exemplar-load-logging/ExemplarTypes.cpp; the copy under
 * src/child-directors/exemplar-load-logging/ is the same code).
 */
module ExemplarTypes {
  import opened GZTypes
  import opened StringViewUtil

  /** ExemplarTypeMap: the known exemplar type numbers and their names. */
  const ExemplarTypeMap: map<U32, string> := map[
    0x00 := "Other/Unknown",
    0x01 := "Tuning",
    0x02 := "Buildings",
    0x03 := "RCI",
    0x04 := "Developer",
    0x05 := "Simulator",
    0x06 := "Road",
    0x07 := "Bridge",
    0x08 := "MiscNetwork",
    0x09 := "NetworkIntersection",
    0x0A := "Rail",
    0x0B := "Highway",
    0x0C := "PowerLine",
    0x0D := "Terrain",
    0x0E := "Ordinances",
    0x0F := "Flora",
    0x10 := "LotConfigurations",
    0x11 := "Foundations",
    0x12 := "Advice",
    0x13 := "Lighting",
    0x14 := "Cursor",
    0x15 := "LotRetainingWalls",
    0x16 := "Vehicles",
    0x17 := "Pedestrians",
    0x18 := "Aircraft",
    0x19 := "Watercraft",
    0x1E := "Prop",
    0x1F := "Construction",
    0x20 := "Automata Tuning",
    0x21 := "Type 21",
    0x22 := "Disaster",
    0x23 := "Data view",
    0x24 := "Crime",
    0x25 := "Audio",
    0x26 := "My Sim Template",
    0x27 := "TerrainBrush",
    0x28 := "Misc Catalog"
  ]

  // ---------------------------------------------------------------------
  // std::from_chars for an unsigned 32-bit integer in a given base
  // ---------------------------------------------------------------------

  /** The digit value of c in the given base, if c is a digit of that base (either letter case). */
  function DigitValue(c: char, base: nat): Option<nat>
  {
    var d := if '0' <= c <= '9' then c as int - '0' as int
             else if 'a' <= c <= 'z' then c as int - 'a' as int + 10
             else if 'A' <= c <= 'Z' then c as int - 'A' as int + 10
             else base;
    if d < base then Some(d) else None
  }

  predicate IsDigit(c: char, base: nat)
  {
    DigitValue(c, base).Some?
  }

  /** A non-empty string of digits of the base: what from_chars accepts as a whole. */
  predicate IsNumeral(s: string, base: nat)
  {
    |s| > 0 && forall i :: 0 <= i < |s| ==> IsDigit(s[i], base)
  }

  /** Length of the longest prefix of s made of digits: how far from_chars reads. */
  function DigitRun(s: string, base: nat): (n: nat)
    ensures n <= |s|
    ensures forall i :: 0 <= i < n ==> IsDigit(s[i], base)
    ensures n < |s| ==> !IsDigit(s[n], base)
  {
    if s == [] || !IsDigit(s[0], base) then 0 else 1 + DigitRun(s[1..], base)
  }

  /** The value of a string of digits, most significant first. */
  function NumeralValue(s: string, base: nat): nat
    requires forall i :: 0 <= i < |s| ==> IsDigit(s[i], base)
  {
    if s == [] then 0
    else
      var last := |s| - 1;
      var digit := DigitValue(s[last], base);
      assert IsDigit(s[last], base);
      var high := NumeralValue(s[..last], base);
      assert high * base >= 0;
      high * base + digit.value
  }

  datatype Errc = NoError | InvalidArgument | ResultOutOfRange

  /** What from_chars reports: how many characters it read, the error code, the output value. */
  datatype FromCharsResult = FromCharsResult(ptr: nat, ec: Errc, value: U32)

  /**
   * std::from_chars(first, last, value, base) for uint32_t: no sign, no
   * whitespace and no "0x" prefix are accepted; it reads the longest run of
   * digits; no digit at all is invalid_argument with nothing read; a value
   * that does not fit is result_out_of_range; on error the output keeps its
   * previous value.
   */
  function FromChars(s: string, base: nat, previous: U32): (r: FromCharsResult)
    ensures r.ptr <= |s|
    ensures r.ec == NoError ==> IsNumeral(s[..r.ptr], base) && r.value == NumeralValue(s[..r.ptr], base)
    ensures r.ec != NoError ==> r.value == previous
  {
    var n := DigitRun(s, base);
    if n == 0 then FromCharsResult(0, InvalidArgument, previous)
    else
      var v := NumeralValue(s[..n], base);
      if v < U32Modulus then FromCharsResult(n, NoError, v)
      else FromCharsResult(n, ResultOutOfRange, previous)
  }

  // ---------------------------------------------------------------------
  // TryParseNumber, TryParseExemplarNumber, GetExemplarTypeName
  // ---------------------------------------------------------------------

  /** The digits the parser hands to from_chars, and the base it uses for them. */
  function ParseInput(value: string): (string, nat)
  {
    if StartsWithIgnoreCase(value, "0x") then (value[2..], 16) else (value, 10)
  }

  /**
   * TryParseNumber: skip a case-insensitive "0x" prefix and switch to base 16
   * (only when something follows the prefix), then require from_chars to
   * succeed and to consume the whole remaining input.
   */
  function TryParseNumber(value: string): (r: Option<U32>)
    ensures r.Some? ==> IsNumeral(ParseInput(value).0, ParseInput(value).1)
  {
    var hex := StartsWithIgnoreCase(value, "0x");
    var begin := if hex then 2 else 0;
    var base := if hex then 16 else 10;
    var result := FromChars(value[begin..], base, 0);
    if result.ec == NoError && begin + result.ptr == |value| then Some(result.value) else None
  }

  /** A digit run that reaches the end of s means s is all digits. */
  lemma DigitRunWhole(s: string, base: nat)
    ensures DigitRun(s, base) == |s| <==> forall i :: 0 <= i < |s| ==> IsDigit(s[i], base)
  {
  }

  /**
   * The parser against its reference: it succeeds exactly on a non-empty
   * numeral of the chosen base whose value fits in 32 bits, and yields that value.
   */
  lemma TryParseNumberSpec(value: string)
    ensures var (digits, base) := ParseInput(value);
      (TryParseNumber(value).Some? <==> IsNumeral(digits, base) && NumeralValue(digits, base) < U32Modulus)
      && (TryParseNumber(value).Some? ==> TryParseNumber(value).value == NumeralValue(digits, base))
  {
    var (digits, base) := ParseInput(value);
    DigitRunWhole(digits, base);
    assert digits[..|digits|] == digits;
  }

  /** A leading sign is never accepted, neither is the empty input. */
  lemma TryParseNumberRejectsSignAndEmpty(value: string)
    requires value == [] || value[0] == '-' || value[0] == '+'
    ensures TryParseNumber(value) == None
  {
    TryParseNumberSpec(value);
    HexPrefixSpec(value);
    if value != [] && !StartsWithIgnoreCase(value, "0x") {
      assert !IsDigit(value[0], 10);
    }
  }

  /** A lone "0x" is not a hexadecimal prefix: it is read in base 10 and stops at the 'x'. */
  lemma TryParseNumberLonePrefix()
    ensures TryParseNumber("0x") == None
    ensures TryParseNumber("0X") == None
  {
    TryParseNumberSpec("0x");
    TryParseNumberSpec("0X");
    assert !IsDigit("0x"[1], 10);
    assert !IsDigit("0X"[1], 10);
  }

  /** Values of 2^32 and above do not fit and fail. */
  lemma TryParseNumberOverflow(value: string)
    requires IsNumeral(ParseInput(value).0, ParseInput(value).1)
    requires NumeralValue(ParseInput(value).0, ParseInput(value).1) >= U32Modulus
    ensures TryParseNumber(value) == None
  {
    TryParseNumberSpec(value);
  }

  /** The digit character for d: decimal digits, then upper-case letters. */
  function DigitChar(d: nat): (c: char)
    requires d < 16
    ensures DigitValue(c, 16) == Some(d)
    ensures d < 10 ==> DigitValue(c, 10) == Some(d)
  {
    if d < 10 then ('0' as int + d) as char else ('A' as int + d - 10) as char
  }

  /** The canonical numeral of v in base (10 or 16), without leading zeros. */
  function ToNumeral(v: nat, base: nat): (s: string)
    requires base == 10 || base == 16
    decreases v
  {
    if v < base then [DigitChar(v)] else ToNumeral(v / base, base) + [DigitChar(v % base)]
  }

  lemma {:induction false} ToNumeralIsNumeral(v: nat, base: nat)
    requires base == 10 || base == 16
    ensures IsNumeral(ToNumeral(v, base), base)
    ensures NumeralValue(ToNumeral(v, base), base) == v
  {
    var s := ToNumeral(v, base);
    if v < base {
    } else {
      var q, d := v / base, v % base;
      ToNumeralIsNumeral(q, base);
      var t := ToNumeral(q, base);
      assert s == t + [DigitChar(d)];
      assert s[..|s| - 1] == t;
      assert forall i :: 0 <= i < |s| ==> IsDigit(s[i], base) by {
        forall i | 0 <= i < |s| ensures IsDigit(s[i], base) {
          if i < |t| { assert s[i] == t[i]; }
        }
      }
      assert NumeralValue(s, base) == q * base + d;
      assert q * base + d == v by {
        if base == 10 { assert v == (v / 10) * 10 + v % 10; } else { assert v == (v / 16) * 16 + v % 16; }
      }
    }
  }

  /** Printing a 32-bit value in decimal and parsing it back yields the value. */
  lemma DecimalRoundTrip(v: U32)
    ensures TryParseNumber(ToNumeral(v, 10)) == Some(v)
  {
    var s := ToNumeral(v, 10);
    ToNumeralIsNumeral(v, 10);
    HexPrefixSpec(s);
    if |s| > 2 {
      assert IsDigit(s[1], 10);
    }
    TryParseNumberSpec(s);
  }

  /** Printing a 32-bit value in hexadecimal after a "0x" or "0X" prefix and parsing it back yields the value. */
  lemma HexRoundTrip(v: U32, x: char)
    requires x == 'x' || x == 'X'
    ensures TryParseNumber(['0', x] + ToNumeral(v, 16)) == Some(v)
  {
    var digits := ToNumeral(v, 16);
    var s := ['0', x] + digits;
    ToNumeralIsNumeral(v, 16);
    HexPrefixSpec(s);
    assert s[2..] == digits;
    TryParseNumberSpec(s);
  }

  /** The result of TryParseExemplarNumber: the bool it returns and what it writes to exemplarType. */
  datatype ParsedExemplarType = ParsedExemplarType(success: bool, exemplarType: U32)

  /** TryParseExemplarNumber: a parsed number that is also a known exemplar type; 0 is written on failure. */
  function TryParseExemplarNumber(value: string): (r: ParsedExemplarType)
    ensures r.success ==> r.exemplarType in ExemplarTypeMap
    ensures !r.success ==> r.exemplarType == 0
  {
    var parsed := TryParseNumber(value);
    if parsed.Some? && parsed.value in ExemplarTypeMap then ParsedExemplarType(true, parsed.value)
    else ParsedExemplarType(false, 0)
  }

  /** The map keys are exactly 0x00-0x19 and 0x1E-0x28. */
  lemma ExemplarTypeMapKeys(t: U32)
    ensures t in ExemplarTypeMap <==> t <= 0x19 || 0x1E <= t <= 0x28
  {
  }

  /** TryParseExemplarNumber against the reference numeral definition. */
  lemma TryParseExemplarNumberSpec(value: string)
    ensures var (digits, base) := ParseInput(value);
      var r := TryParseExemplarNumber(value);
      (r.success <==> IsNumeral(digits, base) && NumeralValue(digits, base) in ExemplarTypeMap)
      && (r.success ==> r.exemplarType == NumeralValue(digits, base))
  {
    TryParseNumberSpec(value);
    var (digits, base) := ParseInput(value);
    if IsNumeral(digits, base) && NumeralValue(digits, base) in ExemplarTypeMap {
      ExemplarTypeMapKeys(NumeralValue(digits, base));
    }
  }

  /** A decimal type number is accepted iff it is in the table; 0x1A to 0x1D are not. */
  lemma TryParseExemplarNumberDecimal(v: U32)
    ensures TryParseExemplarNumber(ToNumeral(v, 10)).success <==> v <= 0x19 || 0x1E <= v <= 0x28
    ensures TryParseExemplarNumber(ToNumeral(v, 10)).success ==> TryParseExemplarNumber(ToNumeral(v, 10)).exemplarType == v
  {
    DecimalRoundTrip(v);
    ExemplarTypeMapKeys(v);
  }

  /** GetExemplarTypeName: the table's name for a known type, "Unknown" otherwise. */
  function GetExemplarTypeName(exemplarType: U32): (name: string)
    ensures exemplarType in ExemplarTypeMap ==> name == ExemplarTypeMap[exemplarType]
    ensures name == "Unknown" <==> exemplarType !in ExemplarTypeMap
  {
    if exemplarType in ExemplarTypeMap then ExemplarTypeMap[exemplarType] else "Unknown"
  }
}
