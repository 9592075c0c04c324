# sc4-resource-loading-hooks, modelled in Dafny

sc4-resource-loading-hooks is a SimCity 4 DLL plugin. It wraps the game's resource
factories in proxies, so other DLLs can watch or change resources as the game
loads them. This project models the core of that plugin:

- **The resource factory proxies.** Both copies are modelled
  (`ResourceFactoryProxy`, `ResourceFactoryProxies`).
  - A proxy forwards CreateInstance, Read and Write to the original factory.
  - Calls for a type other than its own are refused.
  - After the original factory answers, the proxy raises ResourceLoaded or
    ResourceLoadError (`FactoryHooks.HookAfterCreate`).
  - The older copy keeps its own COM reference count. Release destroys the
    proxy at a count of one.
- **The exemplar load hook server** (`ExemplarHookServer`). This is the
  exemplar factory proxy. It also keeps two listener tables:
  - load listeners, each with a group/instance filter;
  - load-error listeners.

  It calls every matching listener once per hook.
- **The exemplar patcher** (`ExemplarPatcher`).
  - It scans the cohort records of the exemplar-patch group into an index.
    The index maps an exemplar key to the patches that target it.
  - When an exemplar loads, each of its patches is copied onto it, in order.
    Two property ids are never copied: the target list and the name.
- **The exemplar load logger and its child-director copy**
  (`ExemplarLoadLogger`, `ExemplarLoadLoggingDllDirector`, `LoggerSelection`).
  - They choose a logger from the `-exemplar-log` switch.
  - They register with the hook server for exactly the notifications that
    logger's options name (`ExemplarLoggers`).
  - The two copies differ in one place: only the director's "TGI" logger also
    logs load errors.
- **Helpers.**
  - The case-insensitive string tests (`StringViewUtil`).
  - The exemplar type table and number parser (`ExemplarTypes`).
  - The fixed-width TGI log line (`ExemplarLoggers`).

Modelling choices:

- **The host is an input to each operation.** This covers the original
  factory's answers, the resource manager's list of cohort records, and
  whether GetClassObject succeeded.
- **Calls out are recorded in logs.** Calls made on the original factory go
  to `delegateCalls`, calls of the proxy's virtual hooks to `hookCalls`, and
  calls made on listeners to `callbacks`.
- **Listeners are identified by address.** A listener is a `nat`, and 0 is
  nullptr.
- **`uint32_t` arithmetic wraps explicitly** (`GZTypes.WrapU32`).
- **Unordered containers.** The source iterates over `unordered_map` and
  `unordered_set`, so the model's loops may visit their elements in any
  order. The contracts hold for every order.

## Model

| member | source | states |
|---|---|---|
| GZTypes.WrapU32 | src/ResourceFactoryProxy.cpp:75-108 | uint32_t wrap-around: in-range values are unchanged, 2^32 wraps to 0, and -1 wraps to 2^32-1 |
| GZTypes.KeysEqualIsEquality | src/PersistResourceKeyBoostHash.h:41-47 | the key comparison the patch index uses compares all three fields, so it is structural equality |
| StringViewUtil.ToUpper | src/StringViewUtil.cpp:16-26 | the character folding used by boost's comparisons: only ASCII lower-case letters change, each by -32 |
| StringViewUtil.Upper | src/StringViewUtil.cpp:16-26 | the whole-string folding is length-preserving and pointwise |
| StringViewUtil.IEqualsIsUpperEquality | src/StringViewUtil.cpp:16-20 | boost::iequals agrees with equality of the folded strings |
| StringViewUtil.IStartsWithIsUpperPrefix | src/StringViewUtil.cpp:22-26 | boost::istarts_with holds iff the prefix fits and equals the input's head once both are folded |
| StringViewUtil.EqualsIgnoreCaseSpec | src/StringViewUtil.cpp:16-20 | EqualsIgnoreCase holds iff the lengths are equal and the characters agree pairwise after folding (both directions) |
| StringViewUtil.EqualsIgnoreCaseReflexive | src/StringViewUtil.cpp:16-20 | every string equals itself ignoring case |
| StringViewUtil.EqualsIgnoreCaseSymmetric | src/StringViewUtil.cpp:16-20 | the argument order does not matter |
| StringViewUtil.EqualsIgnoreCaseTransitive | src/StringViewUtil.cpp:16-20 | the relation is transitive, so it is an equivalence |
| StringViewUtil.StartsWithIgnoreCaseSpec | src/StringViewUtil.cpp:22-26 | StartsWithIgnoreCase holds iff the input is strictly longer than the prefix and begins with it, ignoring case |
| StringViewUtil.StartsWithIgnoreCaseNeedsLongerInput | src/StringViewUtil.cpp:22-26 | no input starts with a prefix at least as long as itself, because the length test is strict |
| StringViewUtil.HexPrefixSpec | src/exemplar-load-logging/ExemplarTypes.cpp:79-83 | the "0x" test holds iff the input is longer than 2 and begins with 0x or 0X |
| ExemplarTypes.FromChars | src/exemplar-load-logging/ExemplarTypes.cpp:85 | std::from_chars for uint32_t: on success it read a numeral and returns that numeral's value; on error the output keeps its previous value |
| ExemplarTypes.TryParseNumber | src/exemplar-load-logging/ExemplarTypes.cpp:69-88 | a number is accepted only when the text after the optional prefix is a numeral of the chosen base |
| ExemplarTypes.TryParseNumberSpec | src/exemplar-load-logging/ExemplarTypes.cpp:69-88 | the parser succeeds exactly on a whole numeral (base 16 after a "0x" prefix, else base 10) whose value is below 2^32, and returns that value |
| ExemplarTypes.TryParseNumberRejectsSignAndEmpty | src/exemplar-load-logging/ExemplarTypes.cpp:69-88 | the empty input and inputs with a leading + or - are rejected |
| ExemplarTypes.TryParseNumberLonePrefix | src/exemplar-load-logging/ExemplarTypes.cpp:79-87 | a bare "0x" or "0X" is rejected: it is read in base 10 and the x is not consumed |
| ExemplarTypes.TryParseNumberOverflow | src/exemplar-load-logging/ExemplarTypes.cpp:85-87 | a numeral whose value is 2^32 or more is rejected |
| ExemplarTypes.DigitChar | src/exemplar-load-logging/ExemplarTypes.cpp:85 | every digit character reads back as its digit value in base 16, and in base 10 when below ten |
| ExemplarTypes.ToNumeralIsNumeral | src/exemplar-load-logging/ExemplarTypes.cpp:85 | the printed numeral is a numeral of its base whose value is the printed number |
| ExemplarTypes.DecimalRoundTrip | src/exemplar-load-logging/ExemplarTypes.cpp:69-88 | printing any 32-bit value in decimal and parsing it back gives the value |
| ExemplarTypes.HexRoundTrip | src/exemplar-load-logging/ExemplarTypes.cpp:69-88 | printing any 32-bit value in hexadecimal after 0x or 0X and parsing it back gives the value |
| ExemplarTypes.TryParseExemplarNumber | src/exemplar-load-logging/ExemplarTypes.cpp:103-120 | success implies the type is in the table; failure writes 0 |
| ExemplarTypes.ExemplarTypeMapKeys | src/exemplar-load-logging/ExemplarTypes.cpp:26-65 | the table's keys are exactly 0x00-0x19 and 0x1E-0x28 |
| ExemplarTypes.TryParseExemplarNumberSpec | src/child-directors/exemplar-load-logging/ExemplarTypes.cpp:94-111 | success iff the input is a numeral whose value is in the table, and then that value is written (both directions) |
| ExemplarTypes.TryParseExemplarNumberDecimal | src/exemplar-load-logging/ExemplarTypes.cpp:103-120 | a decimal type number is accepted iff it is in the table (0x1A-0x1D are not), and it is returned unchanged |
| ExemplarTypes.GetExemplarTypeName | src/exemplar-load-logging/ExemplarTypes.cpp:91-101 | a known type gets its table name; "Unknown" is returned iff the type is not in the table |
| ExemplarLoggers.ResourceLoggerOptions | src/exemplar-load-logging/Loggers/ExemplarResourceLoggerBase.cpp:38-48 | loading is always requested; load errors are requested iff the logger was built with logResourceLoadErrors; no other bit is set |
| ExemplarLoggers.GetLoggerOptions | src/child-directors/exemplar-load-logging/ExemplarErrorLogger.cpp:24-27 | every logger requests a non-empty subset of the two notifications |
| ExemplarLoggers.GetLoggerOptionsSpec | src/child-directors/exemplar-load-logging/ExemplarResourceLoggerBase.cpp:29-39 | loading is requested iff the logger is a resource logger; errors are requested iff it is the error logger or was built with logResourceLoadErrors |
| ExemplarLoggers.TypeAndFilteredLoggersIgnoreErrors | src/child-directors/exemplar-load-logging/ExemplarTypeLogger.cpp:29 | the type and filtered loggers request loading only |
| ExemplarLoggers.Hex8 | src/exemplar-load-logging/Loggers/ExemplarResourceLoggerBase.cpp:57 | %08X always yields eight characters |
| ExemplarLoggers.TgiLogLineLength | src/exemplar-load-logging/Loggers/ExemplarResourceLoggerBase.cpp:50-71 | the TGI text is always 39 characters; the debug line adds exactly the function name and ": " |
| ExemplarLoggers.Hex8RoundTrip | src/exemplar-load-logging/Loggers/ExemplarResourceLoggerBase.cpp:50-71 | each zero-padded field of the TGI line, read back as a "0x" number, gives the field's value |
| FactoryHooks.HookAfterCreate | src/ResourceFactoryProxy.cpp:110-168 | the raised hook carries the caller's function and interface; it is ResourceLoaded with the created object iff the original factory succeeded; otherwise it is the load error, with the record's key exactly in the record overload |
| ResourceFactoryProxy.NewResourceFactoryProxy | src/ResourceFactoryProxy.cpp:23-48 | without the original factory nothing is built and the "Failed to create the original resource factory." error is thrown; otherwise a fresh proxy for the type with a count of 0 |
| ResourceFactoryProxy.ResourceFactoryProxy.QueryInterface | src/ResourceFactoryProxy.cpp:54-73 | succeeds iff the id is the factory or unknown interface; on success it returns this proxy and takes one reference; otherwise nothing changes |
| ResourceFactoryProxy.ResourceFactoryProxy.AddRef | src/ResourceFactoryProxy.cpp:75-84 | the count is incremented with uint32_t wrap-around and returned; the original factory's count is unchanged |
| ResourceFactoryProxy.ResourceFactoryProxy.Release | src/ResourceFactoryProxy.cpp:86-108 | at a count of 1 the proxy is destroyed and 0 returned; otherwise the count drops by one (wrapping) and the new value is returned |
| ResourceFactoryProxy.ResourceFactoryProxy.CreateInstance | src/ResourceFactoryProxy.cpp:110-135 | another type: false and null, with no forwarded call and no hook; the proxy's own type: one forwarded call, the original factory's answer returned unchanged, and exactly the HookAfterCreate hook raised |
| ResourceFactoryProxy.ResourceFactoryProxy.CreateInstanceFromRecord | src/ResourceFactoryProxy.cpp:137-168 | as CreateInstance, routed on the record key's type; a load error carries the record key |
| ResourceFactoryProxy.ResourceFactoryProxy.Read | src/ResourceFactoryProxy.cpp:170-180 | forwarded once, with the original factory's answer returned |
| ResourceFactoryProxy.ResourceFactoryProxy.Write | src/ResourceFactoryProxy.cpp:182-192 | forwarded once, with the original factory's answer returned |
| ResourceFactoryProxies.NewResourceFactoryProxy | src/resource-factory-proxies/ResourceFactoryProxy.cpp:32-59 | without the original factory the error is thrown; otherwise a fresh proxy for the type with nothing forwarded yet |
| ResourceFactoryProxies.ResourceFactoryProxy.QueryInterface | src/resource-factory-proxies/ResourceFactoryProxy.cpp:65-76 | the factory id succeeds, returns this proxy and takes a base reference; any other id is answered by the base object, and the proxy returns that answer |
| ResourceFactoryProxies.ResourceFactoryProxy.CreateInstance | src/resource-factory-proxies/ResourceFactoryProxy.cpp:88-113 | routing, forwarding and the raised hook as in the older copy |
| ResourceFactoryProxies.ResourceFactoryProxy.CreateInstanceFromRecord | src/resource-factory-proxies/ResourceFactoryProxy.cpp:115-146 | routing on the record's type; a load error carries the record key |
| ResourceFactoryProxies.ResourceFactoryProxy.Read | src/resource-factory-proxies/ResourceFactoryProxy.cpp:148-158 | forwarded once, with the original factory's answer returned |
| ResourceFactoryProxies.ResourceFactoryProxy.Write | src/resource-factory-proxies/ResourceFactoryProxy.cpp:160-170 | forwarded once, with the original factory's answer returned |
| ExemplarHookServer.IsIncludedSpec | src/ExemplarResourceFactoryProxy.cpp:200-218 | the three filter cases: group 0 includes every key; group only matches the group; group and instance must both match |
| ExemplarHookServer.IsIncludedIgnoresType | src/ExemplarResourceFactoryProxy.cpp:200-218 | the filter never looks at the key's type |
| ExemplarHookServer.CallsEachOnceCount | src/ExemplarResourceFactoryProxy.cpp:124-190 | a dispatch that calls each listener once makes exactly as many calls as there are listeners |
| ExemplarHookServer.LoadCallees | src/ExemplarResourceFactoryProxy.cpp:141-150 | the listeners to call are the non-null registered load listeners whose filter includes the key |
| ExemplarHookServer.AnyGroupListenerIsCalled | src/ExemplarResourceFactoryProxy.cpp:141-150 | a listener registered with group 0 is called for every key |
| ExemplarHookServer.EmplaceLoadTarget | src/ExemplarResourceFactoryProxy.cpp:73-86 | a new non-null listener is added with its filter; a null or already registered listener leaves the table unchanged |
| ExemplarHookServer.EmplaceKeepsFirstFilter | src/ExemplarResourceFactoryProxy.cpp:73-86 | registering twice keeps the first filter |
| ExemplarHookServer.EmplaceThenRemove | src/ExemplarResourceFactoryProxy.cpp:73-98 | registering a new listener and removing it restores the table |
| ExemplarHookServer.ErrorCallback | src/ExemplarResourceFactoryProxy.cpp:155-190 | the error notification carries the function and interface, and a key exactly in the record overload |
| ExemplarHookServer.NewExemplarResourceFactoryProxy | src/ExemplarResourceFactoryProxy.cpp:31-34 | the exemplar proxy over the original exemplar factory, with empty listener tables; throws when that factory is missing; the listener calls, the forwarded calls and the raised hooks all start empty |
| ExemplarHookServer.ExemplarResourceFactoryProxy.AddLoadNotificationForGroupAndInstance | src/ExemplarResourceFactoryProxy.cpp:73-86 | true iff the listener is non-null and not yet registered; the table becomes EmplaceLoadTarget of the old one |
| ExemplarHookServer.ExemplarResourceFactoryProxy.AddLoadNotificationForGroup | src/ExemplarResourceFactoryProxy.cpp:65-71 | as above, with instance 0 |
| ExemplarHookServer.ExemplarResourceFactoryProxy.AddLoadNotification | src/ExemplarResourceFactoryProxy.cpp:59-63 | as above, with group and instance 0 |
| ExemplarHookServer.ExemplarResourceFactoryProxy.RemoveLoadNotification | src/ExemplarResourceFactoryProxy.cpp:88-98 | true iff a non-null registered listener was erased; the listener is no longer in the table |
| ExemplarHookServer.ExemplarResourceFactoryProxy.AddLoadErrorNotification | src/ExemplarResourceFactoryProxy.cpp:100-110 | true iff the listener is non-null and new; a non-null listener is in the set afterwards |
| ExemplarHookServer.ExemplarResourceFactoryProxy.RemoveLoadErrorNotification | src/ExemplarResourceFactoryProxy.cpp:112-122 | true iff a non-null registered listener was erased; the listener is no longer in the set |
| ExemplarHookServer.ExemplarResourceFactoryProxy.ResourceLoaded | src/ExemplarResourceFactoryProxy.cpp:124-153 | when a load listener is registered, the resource interface was requested and the object is a non-null exemplar, each including listener is called exactly once with the key, and no other listener is called; otherwise no listener is called |
| ExemplarHookServer.ExemplarResourceFactoryProxy.ResourceLoadError | src/ExemplarResourceFactoryProxy.cpp:155-190 | every registered load-error listener is called exactly once, without filtering, and no other listener is called |
| ExemplarHookServer.ExemplarResourceFactoryProxy.OnHook | src/ResourceFactoryProxy.h:28-40 | the virtual-hook override: a load hook calls exactly the including load listeners, each with ExemplarLoaded(its function name, the object's key), or none when the dispatch does not apply; a load-error hook calls every error listener with LoadError, or with LoadErrorWithKey carrying the hook's key in the record overload, passing the function name and interface through; earlier calls are kept |
| ExemplarHookServer.ExemplarResourceFactoryProxy.CreateInstance | src/ResourceFactoryProxy.cpp:110-135 | the by-type create on the exemplar proxy: another type returns false and null and calls nothing; the exemplar type is forwarded once, its answer returned, one hook raised, and then a success calls exactly the including load listeners with the created key (none when the dispatch does not apply) and a failure calls every error listener with LoadError carrying the function and interface |
| ExemplarHookServer.ExemplarResourceFactoryProxy.CreateInstanceFromRecord | src/ResourceFactoryProxy.cpp:137-168 | the record create on the exemplar proxy: the same routing on the record key's type, forwarded once as a record create, and a failure calls every error listener with LoadErrorWithKey carrying the record's key |
| ExemplarHookServer.ExemplarResourceFactoryProxy.QueryInterface | src/ExemplarResourceFactoryProxy.cpp:36-47 | succeeds iff the id is the hook-server, factory or unknown interface; on success the pointer is this object and the base proxy takes one reference, on failure it is null; the original factory's count is unchanged |
| LoggerSelection.SelectLogger | src/exemplar-load-logging/ExemplarLoadLogger.cpp:175-217 | no logger iff the argument is neither a keyword nor a known type number; the debug level is set iff "debug"; a filtered logger only for a known type that is not a keyword; any non-keyword argument TryParseExemplarNumber accepts, decimal or hexadecimal, selects the filtered logger for the parsed type at the normal level without load errors |
| LoggerSelection.KeywordsExclusive | src/exemplar-load-logging/ExemplarLoadLogger.cpp:175-198 | no argument matches two keywords, so the order of the if-chain never hides a keyword |
| LoggerSelection.SelectLoggerIgnoresCase | src/exemplar-load-logging/ExemplarLoadLogger.cpp:175-198 | any spelling of a keyword selects what the keyword selects |
| LoggerSelection.SelectLoggerKeywords | src/exemplar-load-logging/ExemplarLoadLogger.cpp:175-198 | the keyword table: error gives the error logger; debug gives the TGI logger with errors at debug level; type gives the type logger; TGI gives the TGI logger with the copy's error flag |
| LoggerSelection.CopiesDifferOnlyOnTgi | src/child-directors/exemplar-load-logging/ExemplarLoadLoggingDllDirector.cpp:171-213 | the two copies select different loggers exactly for "TGI" in any case |
| LoggerSelection.SelectLoggerDecimalType | src/exemplar-load-logging/ExemplarLoadLogger.cpp:200-216 | a decimal type number selects the filtered logger for that type if it is known, and nothing otherwise |
| LoggerSelection.SelectedLoggerOptions | src/exemplar-load-logging/ExemplarLoadLogger.cpp:124-139 | the selected logger requests loading unless it is "error", and errors exactly for "error", "debug", or "TGI" in the director copy |
| LoggerSelection.RegistrationOptions | src/exemplar-load-logging/ExemplarLoadLogger.cpp:103-142 | nothing is registered unless the switch is present, a logger exists and the server was obtained; then the logger's own options are used |
| LoggerSelection.RegistrationForArgument | src/child-directors/exemplar-load-logging/ExemplarLoadLoggingDllDirector.cpp:93-138 | starting without a logger, an argument leads to a load registration iff it selects a non-error logger, and to an error registration iff it is error, debug or (director copy) TGI |
| ExemplarLoadLogger.ExemplarLoadLogger.constructor | src/exemplar-load-logging/ExemplarLoadLogger.cpp:56-63 | a zero count, no logger and nothing reported yet |
| ExemplarLoadLogger.ExemplarLoadLogger.AddRef | src/exemplar-load-logging/ExemplarLoadLogger.cpp:93-96 | pre-increment with wrap-around, and the new count is returned |
| ExemplarLoadLogger.ExemplarLoadLogger.Release | src/exemplar-load-logging/ExemplarLoadLogger.cpp:98-101 | the count is returned and never decremented |
| ExemplarLoadLogger.ExemplarLoadLogger.QueryInterface | src/exemplar-load-logging/ExemplarLoadLogger.cpp:65-91 | succeeds iff the id is one of the two listener interfaces or the unknown interface; on success the pointer is this object and one reference is taken, on failure it is null and the count is unchanged |
| ExemplarLoadLogger.ExemplarLoadLogger.SetLoggerFromCommandLine | src/exemplar-load-logging/ExemplarLoadLogger.cpp:175-217 | a selected logger replaces the current one; otherwise the current one stays and the argument is reported as invalid |
| ExemplarLoadLogger.ExemplarLoadLogger.Init | src/exemplar-load-logging/ExemplarLoadLogger.cpp:103-142 | the logger follows the switch, and an argument that selects no logger is reported as invalid; the listener is registered for loads and for errors exactly as the options require, and only with a non-null COM pointer and an obtained server |
| ExemplarLoadLoggingDllDirector.ExemplarLoadLoggingDllDirector.SetLoggerFromCommandLine | src/child-directors/exemplar-load-logging/ExemplarLoadLoggingDllDirector.cpp:171-213 | as in the other copy, with the director's TGI logger |
| ExemplarLoadLoggingDllDirector.ExemplarLoadLoggingDllDirector.OnStart | src/child-directors/exemplar-load-logging/ExemplarLoadLoggingDllDirector.cpp:93-138 | the logger and the invalid-argument report as in Init, as is registration; OnStart always returns true |
| ExemplarPatcher.TargetValues | src/resource-factory-proxies/Exemplar/ExemplarPatcher.cpp:104-130 | a record contributes a target list only when it is a non-empty, even-length uint32 array |
| ExemplarPatcher.RecordDefect | src/resource-factory-proxies/Exemplar/ExemplarPatcher.cpp:119-136 | a logged error names its record, and a record that logs an error contributes nothing |
| ExemplarPatcher.RecordOutcome | src/resource-factory-proxies/Exemplar/ExemplarPatcher.cpp:104-172 | the scan's cases per record: not loaded or no target property gives nothing; a wrong type logs one error; odd length logs one error; empty gives nothing; otherwise the values are the targets |
| ExemplarPatcher.RejectedRecordAddsNothing | src/resource-factory-proxies/Exemplar/ExemplarPatcher.cpp:104-172 | a record without targets leaves the index unchanged |
| ExemplarPatcher.AddTarget | src/resource-factory-proxies/Exemplar/ExemplarPatcher.cpp:146-166 | the key is in the index afterwards and no other key is added |
| ExemplarPatcher.AddTargetsSpec | src/resource-factory-proxies/Exemplar/ExemplarPatcher.cpp:142-167 | after a target list is scanned, each key's list is its old list followed by the patch once per pair naming the key, with no deduplication; a key is present iff it was or some pair names it |
| ExemplarPatcher.PairKeyIsIndexed | src/resource-factory-proxies/Exemplar/ExemplarPatcher.cpp:142-144 | pair k of the target list, as the exemplar key (type, values[2k], values[2k+1]), is indexed |
| ExemplarPatcher.TwoPairs | src/resource-factory-proxies/Exemplar/ExemplarPatcher.cpp:142-167 | two distinct pairs give two keys, each with a one-patch list |
| ExemplarPatcher.ScanPatchesWellFormed | src/resource-factory-proxies/Exemplar/ExemplarPatcher.cpp:104-172 | every indexed key has a non-empty list, naming only records that contributed targets |
| ExemplarPatcher.ScanPatchesAppends | src/resource-factory-proxies/Exemplar/ExemplarPatcher.cpp:146-166 | scanning one more record only appends: old lists stay prefixes, and keys the record does not name are unchanged |
| ExemplarPatcher.PairCountOnlyExemplars | src/resource-factory-proxies/Exemplar/ExemplarPatcher.cpp:144 | every target is an exemplar key |
| ExemplarPatcher.ScanPatchesOrdered | src/resource-factory-proxies/Exemplar/ExemplarPatcher.cpp:240-263 | every indexed key is an exemplar key; each list names corpus records, in enumeration order |
| ExemplarPatcher.AddPairTargets | src/resource-factory-proxies/Exemplar/ExemplarPatcher.cpp:139-167 | the loop over the odd positions builds exactly the index the pair-by-pair definition gives |
| ExemplarPatcher.CopiedIds | src/resource-factory-proxies/Exemplar/ExemplarPatcher.cpp:57-63 | a patch's copied ids are its ids other than the target list and the name |
| ExemplarPatcher.ApplyPatchListSpec | src/resource-factory-proxies/Exemplar/ExemplarPatcher.cpp:293-362 | after the patches: a reserved id is as the target had it; any other id holds the value of the last patch that has it, or is unchanged when no patch has it |
| ExemplarPatcher.ApplyPatchListIdempotent | src/resource-factory-proxies/Exemplar/ExemplarPatcher.cpp:293-362 | applying the same patches twice gives the same result as once |
| ExemplarPatcher.ApplyPatchProperties | src/resource-factory-proxies/Exemplar/ExemplarPatcher.cpp:57-91 | enumerating a patch's properties in any order adds every non-reserved property to the target, replacing any property of the same id |
| ExemplarPatcher.ExemplarPatcher.constructor | src/resource-factory-proxies/Exemplar/ExemplarPatcher.cpp:236-238 | an empty index with debug logging off |
| ExemplarPatcher.ExemplarPatcher.SetDebugLoggingEnabled | src/resource-factory-proxies/Exemplar/ExemplarPatcher.cpp:364-367 | the flag is set to the argument |
| ExemplarPatcher.ExemplarPatcher.LoadExemplarPatches | src/resource-factory-proxies/Exemplar/ExemplarPatcher.cpp:240-291 | with a resource manager and a non-empty record list, the index is replaced by the scan of the records and the scan's errors are logged in order; otherwise the old index stays; the index stays well formed |
| ExemplarPatcher.ExemplarPatcher.ScanRecord | src/resource-factory-proxies/Exemplar/ExemplarPatcher.cpp:104-172 | one record's scan extends the index by its targets and logs its defect |
| ExemplarPatcher.ExemplarPatcher.ApplyPatches | src/resource-factory-proxies/Exemplar/ExemplarPatcher.cpp:293-362 | an exemplar whose key is not indexed is untouched; otherwise its properties become its old ones with the key's patches applied in list order |

## Left out

- All logging output is left out: the log file, the Logger singleton, the
  "Loaded %u Exemplar patches" summary and the debug-only path lookups. The
  model keeps only which error the scan reports, which argument is reported
  as invalid, and the TGI line's text.
- The mutex guarding the patcher and the listener tables is left out. The
  model is sequential.
- Listener re-entrancy is left out. A listener that registers or removes
  listeners during a dispatch is not modelled.
- The host APIs are inputs. These are the original factory, the resource
  manager, GetResource, GetClassObject and the command line.
- The loggers' forwarding of ExemplarLoaded and LoadError is only logging,
  so these calls are recorded as calls and nothing more.
- The numeric values of the host's interface ids are declared in SDK headers
  that are not part of this model. The model only tells the ids apart.
- The ExemplarErrorLogger of src/exemplar-load-logging/Loggers/ is not part
  of this model. Its options are taken from the child-directors copy.
- ResourceFactoryProxies.ResourceFactoryProxy AddRef and Release forward to
  the host's cRZBaseUnknown. They are recorded as a base call, and the count
  itself is not modelled.
- The director's QueryInterface, AddRef and Release come from
  cRZCOMDllDirector, which is not part of this model. The same holds for its
  registration with the game and for GetClassObject's reference bookkeeping.
- The hook server's AddRef and Release forward to the base proxy. They are
  that proxy's ResourceFactoryProxy.ResourceFactoryProxy.AddRef and Release.
- The release of the original factory when a proxy is destroyed is left out.
  So is how ResourceLoadingHooksDllDirector wires the patcher into the
  exemplar proxy.
- LoadExemplarPatches: the case where GetAvailableResourceList fails and
  leaves the list pointer null is not modelled. Only the empty and
  non-empty lists are.
- ExemplarPatcher.ApplyPatchProperties: AddProperty is assumed to replace a
  property of the same id. The target receives property values, whereas the
  source inserts the patch's property object itself, so sharing of that
  object is not modelled.
- ExemplarLoadLogger.ExemplarLoadLogger.AddRef: the count is assumed to be a
  uint32_t, because the class header is not part of this model.
- The listener calls carry the resource key where the source passes the
  loaded exemplar's cISCPropertyHolder. The model keeps which listener is
  called, the function name and the key, and not the object itself.
- StringViewUtil: std::string_view bytes are modelled as Dafny characters,
  and ToUpper folds only the ASCII letters a-z. This agrees with
  std::toupper under the "C" locale and not under other locales.
