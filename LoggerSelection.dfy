/**
 * SetLoggerFromCommandLine's choice of logger from the value of the
 * `-exemplar-log` switch. The two copies
 * (src/exemplar-load-logging/ExemplarLoadLogger.cpp and
 * src/child-directors/exemplar-load-logging/ExemplarLoadLoggingDllDirector.cpp)
 * run the same case-insensitive if-chain and differ in one constructor
 * argument only: whether the "TGI" logger also logs load errors.
 */
module LoggerSelection {
  import opened GZTypes
  import opened StringViewUtil
  import opened ExemplarLoggers
  import ExemplarTypes

  /** The selection made by the ExemplarLoadLogger copy: "TGI" does not log load errors. */
  const LoadLoggerTgiLogsErrors: bool := false
  /** The selection made by the ExemplarLoadLoggingDllDirector copy: "TGI" logs load errors. */
  const DllDirectorTgiLogsErrors: bool := true

  /** The four keyword arguments, compared ignoring case. */
  predicate IsKeyword(argName: string)
  {
    EqualsIgnoreCase(argName, "error") || EqualsIgnoreCase(argName, "debug")
    || EqualsIgnoreCase(argName, "type") || EqualsIgnoreCase(argName, "TGI")
  }

  /**
   * The logger the if-chain constructs for `argName`, or None when it
   * constructs none (after which the "Invalid exemplar type argument" error
   * is logged). Every logger except "debug" is built at the normal level.
   */
  function SelectLogger(argName: string, tgiLogsLoadErrors: bool): (logger: Option<ExemplarLogger>)
    ensures logger.None? <==> !IsKeyword(argName) && !ExemplarTypes.TryParseExemplarNumber(argName).success
    ensures logger.Some? && logger.value.debugLevel <==> EqualsIgnoreCase(argName, "debug")
    ensures logger.Some? && logger.value.ResourceLogger? && logger.value.kind.FilteredLogger? ==>
              !IsKeyword(argName) && logger.value.kind.exemplarType in ExemplarTypes.ExemplarTypeMap
    ensures !IsKeyword(argName) && ExemplarTypes.TryParseExemplarNumber(argName).success ==>
              logger == Some(ResourceLogger(FilteredLogger(ExemplarTypes.TryParseExemplarNumber(argName).exemplarType), false, false))
  {
    if EqualsIgnoreCase(argName, "error") then Some(ErrorLogger(false))
    else if EqualsIgnoreCase(argName, "debug") then Some(NewTgiLogger(true, true))
    else if EqualsIgnoreCase(argName, "type") then Some(NewTypeLogger(false))
    else if EqualsIgnoreCase(argName, "TGI") then Some(NewTgiLogger(tgiLogsLoadErrors, false))
    else
      var parsed := ExemplarTypes.TryParseExemplarNumber(argName);
      if parsed.success then Some(NewFilteredLogger(parsed.exemplarType, false)) else None
  }

  /** The keywords are distinct ignoring case, so at most one of them matches any argument. */
  lemma KeywordsExclusive(argName: string)
    ensures EqualsIgnoreCase(argName, "error") ==> !EqualsIgnoreCase(argName, "debug") && !EqualsIgnoreCase(argName, "type") && !EqualsIgnoreCase(argName, "TGI")
    ensures EqualsIgnoreCase(argName, "debug") ==> !EqualsIgnoreCase(argName, "type") && !EqualsIgnoreCase(argName, "TGI")
    ensures EqualsIgnoreCase(argName, "type") ==> !EqualsIgnoreCase(argName, "TGI")
  {
    EqualsIgnoreCaseSpec(argName, "error");
    EqualsIgnoreCaseSpec(argName, "debug");
    EqualsIgnoreCaseSpec(argName, "type");
    EqualsIgnoreCaseSpec(argName, "TGI");
  }

  /** Every spelling of a keyword selects the same logger as the keyword itself. */
  lemma SelectLoggerIgnoresCase(argName: string, keyword: string, tgiLogsLoadErrors: bool)
    requires keyword in ["error", "debug", "type", "TGI"]
    requires EqualsIgnoreCase(argName, keyword)
    ensures SelectLogger(argName, tgiLogsLoadErrors) == SelectLogger(keyword, tgiLogsLoadErrors)
  {
    KeywordsExclusive(argName);
    KeywordsExclusive(keyword);
    EqualsIgnoreCaseReflexive(keyword);
    EqualsIgnoreCaseSymmetric(argName, keyword);
    var others := ["error", "debug", "type", "TGI"];
    forall k | k in others && EqualsIgnoreCase(keyword, k)
      ensures EqualsIgnoreCase(argName, k)
    {
      EqualsIgnoreCaseTransitive(argName, keyword, k);
    }
    forall k | k in others && EqualsIgnoreCase(argName, k)
      ensures EqualsIgnoreCase(keyword, k)
    {
      EqualsIgnoreCaseTransitive(keyword, argName, k);
    }
  }

  /** The keyword table, whatever the copy. */
  lemma SelectLoggerKeywords(tgiLogsLoadErrors: bool)
    ensures SelectLogger("error", tgiLogsLoadErrors) == Some(ErrorLogger(false))
    ensures SelectLogger("debug", tgiLogsLoadErrors) == Some(ResourceLogger(TgiLogger, true, true))
    ensures SelectLogger("type", tgiLogsLoadErrors) == Some(ResourceLogger(TypeLogger, false, false))
    ensures SelectLogger("TGI", tgiLogsLoadErrors) == Some(ResourceLogger(TgiLogger, tgiLogsLoadErrors, false))
  {
    EqualsIgnoreCaseReflexive("error");
    EqualsIgnoreCaseReflexive("debug");
    EqualsIgnoreCaseReflexive("type");
    EqualsIgnoreCaseReflexive("TGI");
    KeywordsExclusive("error");
    KeywordsExclusive("debug");
    KeywordsExclusive("type");
  }

  /** The two copies choose differently exactly for "TGI" in any case. */
  lemma CopiesDifferOnlyOnTgi(argName: string)
    ensures SelectLogger(argName, LoadLoggerTgiLogsErrors) != SelectLogger(argName, DllDirectorTgiLogsErrors)
            <==> EqualsIgnoreCase(argName, "TGI")
  {
    KeywordsExclusive(argName);
  }

  /** A decimal exemplar type number selects the filtered logger for that type, or nothing if the type is unknown. */
  lemma SelectLoggerDecimalType(v: U32, tgiLogsLoadErrors: bool)
    ensures var logger := SelectLogger(ExemplarTypes.ToNumeral(v, 10), tgiLogsLoadErrors);
            (v in ExemplarTypes.ExemplarTypeMap ==> logger == Some(ResourceLogger(FilteredLogger(v), false, false)))
            && (v !in ExemplarTypes.ExemplarTypeMap ==> logger == None)
  {
    var s := ExemplarTypes.ToNumeral(v, 10);
    ExemplarTypes.ToNumeralIsNumeral(v, 10);
    ExemplarTypes.TryParseExemplarNumberDecimal(v);
    ExemplarTypes.ExemplarTypeMapKeys(v);
    assert !IsKeyword(s) by {
      EqualsIgnoreCaseSpec(s, "error");
      EqualsIgnoreCaseSpec(s, "debug");
      EqualsIgnoreCaseSpec(s, "type");
      EqualsIgnoreCaseSpec(s, "TGI");
      assert ExemplarTypes.IsDigit(s[0], 10);
    }
  }

  /** The notifications the selected logger asks for, per argument. */
  lemma SelectedLoggerOptions(argName: string, tgiLogsLoadErrors: bool)
    requires SelectLogger(argName, tgiLogsLoadErrors).Some?
    ensures var options := GetLoggerOptions(SelectLogger(argName, tgiLogsLoadErrors).value);
            (HasOption(options, LogExemplarLoading) <==> !EqualsIgnoreCase(argName, "error"))
            && (HasOption(options, LogExemplarLoadingErrors) <==>
                  EqualsIgnoreCase(argName, "error") || EqualsIgnoreCase(argName, "debug")
                  || (tgiLogsLoadErrors && EqualsIgnoreCase(argName, "TGI")))
  {
    KeywordsExclusive(argName);
    GetLoggerOptionsSpec(SelectLogger(argName, tgiLogsLoadErrors).value);
  }

  /**
   * The options Init / OnStart act on: none unless the switch was present,
   * a logger exists and the hook server was obtained; then the logger's own.
   */
  function RegistrationOptions(switchValue: Option<string>, logger: Option<ExemplarLogger>, serverObtained: bool)
    : (options: LoggerOptions)
    ensures options != NoOptions <==> switchValue.Some? && logger.Some? && serverObtained
    ensures options != NoOptions ==> options == GetLoggerOptions(logger.value)
  {
    if switchValue.Some? && logger.Some? && serverObtained then GetLoggerOptions(logger.value) else NoOptions
  }

  /**
   * Starting from no logger, the switch value `argName` leads to a load
   * registration iff it selects a logger other than the error logger, and to
   * an error registration iff it selects "error", "debug", or (in the copy
   * whose "TGI" logs errors) "TGI".
   */
  lemma RegistrationForArgument(argName: string, tgiLogsLoadErrors: bool)
    ensures var options := RegistrationOptions(Some(argName), SelectLogger(argName, tgiLogsLoadErrors), true);
            (HasOption(options, LogExemplarLoading) <==>
               SelectLogger(argName, tgiLogsLoadErrors).Some? && !EqualsIgnoreCase(argName, "error"))
            && (HasOption(options, LogExemplarLoadingErrors) <==>
                  EqualsIgnoreCase(argName, "error") || EqualsIgnoreCase(argName, "debug")
                  || (tgiLogsLoadErrors && EqualsIgnoreCase(argName, "TGI")))
  {
    var logger := SelectLogger(argName, tgiLogsLoadErrors);
    if logger.Some? {
      SelectedLoggerOptions(argName, tgiLogsLoadErrors);
    } else {
      KeywordsExclusive(argName);
    }
  }
}
