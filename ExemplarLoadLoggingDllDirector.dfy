/**
 * ExemplarLoadLoggingDllDirector
 * (src/child-directors/exemplar-load-logging/ExemplarLoadLoggingDllDirector.cpp):
 * the child-director form of the exemplar load logger. It selects its logger
 * like ExemplarLoadLogger except that "TGI" also logs load errors, and it
 * registers from OnStart, which always succeeds.
 */
module ExemplarLoadLoggingDllDirector {
  import opened GZTypes
  import opened ExemplarLoggers
  import opened LoggerSelection
  import Server = ExemplarHookServer

  /** kExemplarLoadLoggingDirectorID, returned by GetDirectorID. */
  const DirectorId: U32 := 0xC6703C6C

  class ExemplarLoadLoggingDllDirector {
    /** The object's address, the identity under which it registers; never null. */
    const listenerId: Server.ListenerAddress
    /** std::unique_ptr<ExemplarLoggerBase>; None is the empty pointer. */
    var exemplarLogger: Option<ExemplarLogger>
    /** The arguments reported by the "Invalid exemplar type argument" error line, oldest first. */
    var invalidArguments: seq<string>

    constructor (listenerId: Server.ListenerAddress)
      ensures this.listenerId == listenerId
      ensures exemplarLogger.None? && invalidArguments == []
    {
      this.listenerId := listenerId;
      exemplarLogger := None;
      invalidArguments := [];
    }

    /** SetLoggerFromCommandLine: as in ExemplarLoadLogger, with this copy's "TGI" logger. */
    method SetLoggerFromCommandLine(argName: string)
      modifies this`exemplarLogger, this`invalidArguments
      ensures SelectLogger(argName, DllDirectorTgiLogsErrors).Some? ==>
                exemplarLogger == SelectLogger(argName, DllDirectorTgiLogsErrors) && invalidArguments == old(invalidArguments)
      ensures SelectLogger(argName, DllDirectorTgiLogsErrors).None? ==>
                exemplarLogger == old(exemplarLogger) && invalidArguments == old(invalidArguments) + [argName]
    {
      var selected := SelectLogger(argName, DllDirectorTgiLogsErrors);
      if selected.Some? {
        exemplarLogger := selected;
      } else {
        invalidArguments := invalidArguments + [argName];
      }
    }

    /**
     * OnStart: with the `-exemplar-log` switch present, select the logger;
     * then, if there is one, obtain the hook server and register for the
     * notifications the logger's options name. `serverObtained` is whether
     * GetClassObject succeeded and `hookServer` what it returns. OnStart
     * returns true in every case.
     */
    method OnStart(switchValue: Option<string>, serverObtained: bool, hookServer: Server.ExemplarResourceFactoryProxy) returns (result: bool)
      requires hookServer.Valid()
      modifies this`exemplarLogger, this`invalidArguments
      modifies hookServer`exemplarLoadTargets, hookServer`exemplarLoadErrorTargets
      ensures hookServer.Valid()
      ensures result
      ensures switchValue.None? ==> exemplarLogger == old(exemplarLogger) && invalidArguments == old(invalidArguments)
      ensures switchValue.Some? ==>
                var selected := SelectLogger(switchValue.value, DllDirectorTgiLogsErrors);
                && exemplarLogger == (if selected.Some? then selected else old(exemplarLogger))
                && invalidArguments == (if selected.Some? then old(invalidArguments) else old(invalidArguments) + [switchValue.value])
      ensures var options := RegistrationOptions(switchValue, exemplarLogger, serverObtained);
              && hookServer.exemplarLoadTargets ==
                     (if HasOption(options, LogExemplarLoading)
                      then Server.EmplaceLoadTarget(old(hookServer.exemplarLoadTargets), listenerId, Server.TgiFilter(0, 0))
                      else old(hookServer.exemplarLoadTargets))
              && hookServer.exemplarLoadErrorTargets ==
                     (if HasOption(options, LogExemplarLoadingErrors)
                      then old(hookServer.exemplarLoadErrorTargets) + {listenerId}
                      else old(hookServer.exemplarLoadErrorTargets))
    {
      if switchValue.Some? {
        SetLoggerFromCommandLine(switchValue.value);
        if exemplarLogger.Some? {
          if serverObtained {
            var options := GetLoggerOptions(exemplarLogger.value);
            if HasOption(options, LogExemplarLoading) {
              var _ := hookServer.AddLoadNotification(listenerId);
            }
            if HasOption(options, LogExemplarLoadingErrors) {
              var _ := hookServer.AddLoadErrorNotification(listenerId);
            }
          }
        }
      }
      result := true;
    }
  }
}
