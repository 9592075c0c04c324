/**
 * The exemplar loggers as configurations: the ExemplarLoggerOptions flag set
 * (Loggers/ExemplarLoggerBase.h), GetLoggerOptions of the error logger and of
 * ExemplarResourceLoggerBase, and the line ExemplarResourceLoggerBase::LogExemplarTGI
 * writes. The two copies of these files in the repository
 * (src/exemplar-load-logging/Loggers/ and src/child-directors/exemplar-load-logging/)
 * are the same code and are modelled once.
 */
module ExemplarLoggers {
  import opened GZTypes
  import ExemplarTypes
  import StringViewUtil

  /** ExemplarLoggerOptions, an enum class over uint32_t used as a bit set. */
  type LoggerOptions = bv32

  const NoOptions: LoggerOptions := 0
  const LogExemplarLoading: LoggerOptions := 1           // 1 << 0
  const LogExemplarLoadingErrors: LoggerOptions := 2     // 1 << 1

  /** The test `(options & flag) != ExemplarLoggerOptions::None`; operator& is the bitwise and. */
  predicate HasOption(options: LoggerOptions, flag: LoggerOptions)
  {
    options & flag != NoOptions
  }

  /**
   * ExemplarResourceLoggerBase::GetLoggerOptions: loading is always logged,
   * load errors only when the logger was built with logResourceLoadErrors.
   */
  function ResourceLoggerOptions(logResourceLoadErrors: bool): (options: LoggerOptions)
    ensures HasOption(options, LogExemplarLoading)
    ensures HasOption(options, LogExemplarLoadingErrors) <==> logResourceLoadErrors
    ensures options & !(LogExemplarLoading | LogExemplarLoadingErrors) == NoOptions
    ensures options == 1 || options == 3
  {
    var options := LogExemplarLoading;
    if logResourceLoadErrors then options | LogExemplarLoadingErrors else options
  }

  /** The loggers derived from ExemplarResourceLoggerBase. */
  datatype ResourceLoggerKind =
    | TgiLogger                              // ExemplarTGILogger
    | TypeLogger                             // ExemplarTypeLogger
    | FilteredLogger(exemplarType: U32)      // FilteredExemplarLogger

  /**
   * A constructed logger: its class and the constructor arguments that
   * decide its behaviour (the log file path is left out).
   */
  datatype ExemplarLogger =
    | ErrorLogger(debugLevel: bool)
    | ResourceLogger(kind: ResourceLoggerKind, logResourceLoadErrors: bool, debugLevel: bool)

  /** new ExemplarTGILogger(logResourceLoadErrors, path, debugLevel) */
  function NewTgiLogger(logResourceLoadErrors: bool, debugLevel: bool): ExemplarLogger
  {
    ResourceLogger(TgiLogger, logResourceLoadErrors, debugLevel)
  }

  /** new ExemplarTypeLogger(path, debugLevel): its base is built with logResourceLoadErrors false. */
  function NewTypeLogger(debugLevel: bool): ExemplarLogger
  {
    ResourceLogger(TypeLogger, false, debugLevel)
  }

  /** new FilteredExemplarLogger(type, path, debugLevel): its base is built with logResourceLoadErrors false. */
  function NewFilteredLogger(exemplarType: U32, debugLevel: bool): ExemplarLogger
  {
    ResourceLogger(FilteredLogger(exemplarType), false, debugLevel)
  }

  /** The virtual GetLoggerOptions: the error logger only reports load errors. */
  function GetLoggerOptions(logger: ExemplarLogger): (options: LoggerOptions)
    ensures options == 1 || options == 2 || options == 3
  {
    match logger
    case ErrorLogger(_) => LogExemplarLoadingErrors
    case ResourceLogger(_, logResourceLoadErrors, _) => ResourceLoggerOptions(logResourceLoadErrors)
  }

  /** Which notifications a logger asks for, stated per logger class. */
  lemma GetLoggerOptionsSpec(logger: ExemplarLogger)
    ensures HasOption(GetLoggerOptions(logger), LogExemplarLoading) <==> logger.ResourceLogger?
    ensures HasOption(GetLoggerOptions(logger), LogExemplarLoadingErrors) <==>
              (logger.ErrorLogger? || logger.logResourceLoadErrors)
  {
  }

  /** The type and filtered loggers never ask for load errors. */
  lemma TypeAndFilteredLoggersIgnoreErrors(exemplarType: U32, debugLevel: bool)
    ensures GetLoggerOptions(NewTypeLogger(debugLevel)) == LogExemplarLoading
    ensures GetLoggerOptions(NewFilteredLogger(exemplarType, debugLevel)) == LogExemplarLoading
  {
  }

  // ---------------------------------------------------------------------
  // LogExemplarTGI
  // ---------------------------------------------------------------------

  function Zeros(n: nat): (z: string)
    ensures |z| == n
    ensures forall i :: 0 <= i < n ==> z[i] == '0'
  {
    if n == 0 then [] else ['0'] + Zeros(n - 1)
  }

  /** printf's %08X: upper-case hexadecimal, zero-padded to eight digits. */
  function Hex8(v: U32): (s: string)
    ensures |s| == 8
  {
    var digits := ExemplarTypes.ToNumeral(v, 16);
    HexDigitsFit(v, 8, 0x1_0000_0000);
    Zeros(8 - |digits|) + digits
  }

  lemma {:induction false} HexDigitsFit(v: nat, k: nat, bound: nat)
    requires 1 <= k && bound == Pow16(k) && v < bound
    ensures |ExemplarTypes.ToNumeral(v, 16)| <= k
  {
    assert Pow16(1) == 16;
    if v >= 16 {
      assert v / 16 < Pow16(k - 1);
      HexDigitsFit(v / 16, k - 1, Pow16(k - 1));
    }
  }

  function Pow16(k: nat): (p: nat)
    ensures p >= 1
  {
    if k == 0 then 1 else 16 * Pow16(k - 1)
  }

  /** "T=0x%08X G=0x%08X, I=0x%08X" */
  function TgiText(key: ResourceKey): string
  {
    "T=0x" + Hex8(key.typeId) + " G=0x" + Hex8(key.group) + ", I=0x" + Hex8(key.instance)
  }

  /**
   * The one line LogExemplarTGI writes: at debug level the original function
   * name and ": " come first.
   */
  function TgiLogLine(debugLevel: bool, originalFunctionName: string, key: ResourceKey): (line: string)
    ensures debugLevel ==> line == originalFunctionName + ": " + TgiText(key)
    ensures !debugLevel ==> line == TgiText(key)
  {
    if debugLevel then originalFunctionName + ": " + TgiText(key) else TgiText(key)
  }

  /** The TGI text has a fixed width, so the prefix is exactly what the debug level adds. */
  lemma TgiLogLineLength(debugLevel: bool, originalFunctionName: string, key: ResourceKey)
    ensures |TgiLogLine(debugLevel, originalFunctionName, key)| ==
              (if debugLevel then |originalFunctionName| + 2 else 0) + 39
  {
  }

  /** Leading zeros do not change the value of a numeral. */
  lemma {:induction false} LeadingZerosValue(n: nat, digits: string)
    requires forall i :: 0 <= i < |digits| ==> ExemplarTypes.IsDigit(digits[i], 16)
    ensures forall i :: 0 <= i < |Zeros(n) + digits| ==> ExemplarTypes.IsDigit((Zeros(n) + digits)[i], 16)
    ensures ExemplarTypes.NumeralValue(Zeros(n) + digits, 16) == ExemplarTypes.NumeralValue(digits, 16)
  {
    var s := Zeros(n) + digits;
    assert forall i :: 0 <= i < |s| ==> ExemplarTypes.IsDigit(s[i], 16) by {
      forall i | 0 <= i < |s| ensures ExemplarTypes.IsDigit(s[i], 16) {
        if i >= n { assert s[i] == digits[i - n]; }
      }
    }
    if digits == [] {
      ZerosValue(n);
      assert s == Zeros(n);
    } else {
      var init := digits[..|digits| - 1];
      LeadingZerosValue(n, init);
      assert s[..|s| - 1] == Zeros(n) + init;
      assert s[|s| - 1] == digits[|digits| - 1];
    }
  }

  lemma {:induction false} ZerosValue(n: nat)
    ensures forall i :: 0 <= i < |Zeros(n)| ==> ExemplarTypes.IsDigit(Zeros(n)[i], 16)
    ensures ExemplarTypes.NumeralValue(Zeros(n), 16) == 0
  {
    if n > 0 {
      ZerosValue(n - 1);
      var z := Zeros(n);
      assert z == Zeros(n - 1) + ['0'] by {
        ZerosSnoc(n);
      }
      assert z[..n - 1] == Zeros(n - 1);
    }
  }

  lemma ZerosSnoc(n: nat)
    requires n > 0
    ensures Zeros(n) == Zeros(n - 1) + ['0']
  {
  }

  /** Each eight-digit field of a TGI log line reads back, through the exemplar-type number parser, as the field's value. */
  lemma Hex8RoundTrip(v: U32)
    ensures ExemplarTypes.TryParseNumber("0x" + Hex8(v)) == Some(v)
  {
    var digits := ExemplarTypes.ToNumeral(v, 16);
    HexDigitsFit(v, 8, 0x1_0000_0000);
    ExemplarTypes.ToNumeralIsNumeral(v, 16);
    LeadingZerosValue(8 - |digits|, digits);
    var s := "0x" + Hex8(v);
    StringViewUtil.HexPrefixSpec(s);
    assert s[2..] == Hex8(v);
    ExemplarTypes.TryParseNumberSpec(s);
  }
}
