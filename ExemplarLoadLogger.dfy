/**
 * ExemplarLoadLogger (src/exemplar-load-logging/ExemplarLoadLogger.cpp): the
 * load and load-error listener that picks its logger from the
 * `-exemplar-log` switch and registers with the hook server for the
 * notifications that logger wants.
 */
module ExemplarLoadLogger {
  import opened GZTypes
  import opened ExemplarLoggers
  import opened LoggerSelection
  import Server = ExemplarHookServer

  class ExemplarLoadLogger {
    /** The object's address, the identity under which it registers; never null. */
    const listenerId: Server.ListenerAddress
    /** The COM reference count, a uint32_t starting at 0. */
    var refCount: U32
    /** std::unique_ptr<ExemplarLoggerBase>; None is the empty pointer. */
    var exemplarLogger: Option<ExemplarLogger>
    /** The arguments reported by the "Invalid exemplar type argument" error line, oldest first. */
    var invalidArguments: seq<string>

    constructor (listenerId: Server.ListenerAddress)
      ensures this.listenerId == listenerId
      ensures refCount == 0 && exemplarLogger.None? && invalidArguments == []
    {
      this.listenerId := listenerId;
      refCount := 0;
      exemplarLogger := None;
      invalidArguments := [];
    }

    /** AddRef: pre-increment, returned. */
    method AddRef() returns (count: U32)
      modifies this`refCount
      ensures refCount == WrapU32(old(refCount) + 1) && count == refCount
    {
      refCount := WrapU32(refCount + 1);
      count := refCount;
    }

    /** Release: the count is returned and never decremented. */
    method Release() returns (count: U32)
      ensures count == refCount
    {
      count := refCount;
    }

    /**
     * QueryInterface: the two listener interfaces and the unknown interface
     * are this object and take a reference; any other id yields null.
     */
    method QueryInterface(riid: InterfaceId) returns (ok: bool, ppvObj: ExemplarLoadLogger?)
      modifies this`refCount
      ensures ok <==> riid in {IidExemplarLoadHookTarget, IidExemplarLoadErrorHookTarget, IidUnknown}
      ensures ok ==> ppvObj == this && refCount == WrapU32(old(refCount) + 1)
      ensures !ok ==> ppvObj == null && refCount == old(refCount)
    {
      ok, ppvObj := false, null;
      if riid == IidExemplarLoadHookTarget || riid == IidExemplarLoadErrorHookTarget || riid == IidUnknown {
        ppvObj := this;
        var _ := AddRef();
        ok := true;
      }
    }

    /**
     * SetLoggerFromCommandLine: a selected logger replaces the current one;
     * otherwise the current one stays and the argument is reported.
     */
    method SetLoggerFromCommandLine(argName: string)
      modifies this`exemplarLogger, this`invalidArguments
      ensures SelectLogger(argName, LoadLoggerTgiLogsErrors).Some? ==>
                exemplarLogger == SelectLogger(argName, LoadLoggerTgiLogsErrors) && invalidArguments == old(invalidArguments)
      ensures SelectLogger(argName, LoadLoggerTgiLogsErrors).None? ==>
                exemplarLogger == old(exemplarLogger) && invalidArguments == old(invalidArguments) + [argName]
    {
      var selected := SelectLogger(argName, LoadLoggerTgiLogsErrors);
      if selected.Some? {
        exemplarLogger := selected;
      } else {
        invalidArguments := invalidArguments + [argName];
      }
    }

    /**
     * Init: with the `-exemplar-log` switch present (its value is
     * `switchValue`), select the logger; then, if there is one and the COM
     * pointer is not null, obtain the hook server and register for exactly
     * the notifications the logger's options name. `serverObtained` is
     * whether GetClassObject succeeded and `hookServer` what it returns.
     */
    method Init(switchValue: Option<string>, comPresent: bool, serverObtained: bool, hookServer: Server.ExemplarResourceFactoryProxy)
      requires hookServer.Valid()
      modifies this`exemplarLogger, this`invalidArguments
      modifies hookServer`exemplarLoadTargets, hookServer`exemplarLoadErrorTargets
      ensures hookServer.Valid()
      ensures switchValue.None? ==> exemplarLogger == old(exemplarLogger) && invalidArguments == old(invalidArguments)
      ensures switchValue.Some? ==>
                var selected := SelectLogger(switchValue.value, LoadLoggerTgiLogsErrors);
                && exemplarLogger == (if selected.Some? then selected else old(exemplarLogger))
                && invalidArguments == (if selected.Some? then old(invalidArguments) else old(invalidArguments) + [switchValue.value])
      ensures var options := RegistrationOptions(switchValue, exemplarLogger, comPresent && serverObtained);
              && hookServer.exemplarLoadTargets ==
                     (if HasOption(options, LogExemplarLoading)
                      then Server.EmplaceLoadTarget(old(hookServer.exemplarLoadTargets), listenerId, Server.TgiFilter(0, 0))
                      else old(hookServer.exemplarLoadTargets))
              && hookServer.exemplarLoadErrorTargets ==
                     (if HasOption(options, LogExemplarLoadingErrors)
                      then old(hookServer.exemplarLoadErrorTargets) + {listenerId}
                      else old(hookServer.exemplarLoadErrorTargets))
    {
      if switchValue.Some? {
        SetLoggerFromCommandLine(switchValue.value);
        if exemplarLogger.Some? && comPresent {
          if serverObtained {
            var options := GetLoggerOptions(exemplarLogger.value);
            if HasOption(options, LogExemplarLoading) {
              var _ := hookServer.AddLoadNotification(listenerId);
            }
            if HasOption(options, LogExemplarLoadingErrors) {
              var _ := hookServer.AddLoadErrorNotification(listenerId);
            }
          }
        }
      }
    }
  }
}
