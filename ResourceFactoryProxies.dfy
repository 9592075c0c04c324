/**
 * The newer resource factory proxy of
 * src/resource-factory-proxies/ResourceFactoryProxy.cpp. Its routing of the
 * two CreateInstance overloads and of Read and Write is that of the older
 * copy; the reference count belongs to cRZBaseUnknown, whose code is not part
 * of this model, so the calls made on that base are recorded instead.
 */
module ResourceFactoryProxies {
  import opened GZTypes
  import opened FactoryHooks

  /** A call of the cRZBaseUnknown base class. */
  datatype BaseUnknownCall = BaseAddRef | BaseQueryInterface(riid: InterfaceId)

  class ResourceFactoryProxy {
    const resourceTypeId: U32
    /** The calls forwarded to the wrapped factory, oldest first. */
    var delegateCalls: seq<DelegateCall>
    /** The calls of the virtual hooks ResourceLoaded / ResourceLoadError, oldest first. */
    var hookCalls: seq<HookCall>
    /** The calls made on cRZBaseUnknown, oldest first. */
    var baseUnknownCalls: seq<BaseUnknownCall>

    /** The constructor, once the original factory was obtained; cRZAutoRefCount takes it over as it is. */
    constructor (resourceTypeId: U32)
      ensures this.resourceTypeId == resourceTypeId
      ensures delegateCalls == [] && hookCalls == [] && baseUnknownCalls == []
    {
      this.resourceTypeId := resourceTypeId;
      delegateCalls := [];
      hookCalls := [];
      baseUnknownCalls := [];
    }

    /**
     * QueryInterface: the factory interface is answered here and takes a
     * reference through cRZBaseUnknown::AddRef; every other id is the base
     * class's decision, whose answer is `baseAnswer`.
     */
    method QueryInterface(riid: InterfaceId, baseAnswer: bool) returns (ok: bool, isThisFactory: bool)
      modifies this`baseUnknownCalls
      ensures isThisFactory <==> riid == IidPersistResourceFactory
      ensures isThisFactory ==> ok && baseUnknownCalls == old(baseUnknownCalls) + [BaseAddRef]
      ensures !isThisFactory ==> ok == baseAnswer && baseUnknownCalls == old(baseUnknownCalls) + [BaseQueryInterface(riid)]
    {
      if riid == IidPersistResourceFactory {
        baseUnknownCalls := baseUnknownCalls + [BaseAddRef];
        return true, true;
      }
      baseUnknownCalls := baseUnknownCalls + [BaseQueryInterface(riid)];
      ok, isThisFactory := baseAnswer, false;
    }

    /**
     * CreateInstance(type, riid, ppvObj, ...): a foreign type is refused with
     * null and false and nothing is called; the proxy's own type is
     * forwarded, the answer returned unchanged and exactly one hook raised.
     */
    method CreateInstance(typeId: U32, riid: InterfaceId, answer: DelegateAnswer)
      returns (result: bool, ppvObj: ObjectPtr)
      modifies this`delegateCalls, this`hookCalls
      ensures typeId != resourceTypeId ==>
                !result && ppvObj == Null && delegateCalls == old(delegateCalls) && hookCalls == old(hookCalls)
      ensures typeId == resourceTypeId ==>
                result == answer.result && ppvObj == answer.obj
                && delegateCalls == old(delegateCalls) + [CreateByType(typeId, riid)]
                && hookCalls == old(hookCalls) + [HookAfterCreate(CreateInstanceByType, riid, answer, None)]
    {
      if typeId == resourceTypeId {
        delegateCalls := delegateCalls + [CreateByType(typeId, riid)];
        result, ppvObj := answer.result, answer.obj;
        if result {
          hookCalls := hookCalls + [ResourceLoaded(CreateInstanceByType, riid, ppvObj)];
        } else {
          hookCalls := hookCalls + [ResourceLoadError(CreateInstanceByType, riid)];
        }
        return;
      }
      ppvObj := Null;
      result := false;
    }

    /**
     * CreateInstance(record, riid, ppvObj, ...): routed on the type in the
     * record's key; a failure is reported with that key.
     */
    method CreateInstanceFromRecord(recordKey: ResourceKey, riid: InterfaceId, answer: DelegateAnswer)
      returns (result: bool, ppvObj: ObjectPtr)
      modifies this`delegateCalls, this`hookCalls
      ensures recordKey.typeId != resourceTypeId ==>
                !result && ppvObj == Null && delegateCalls == old(delegateCalls) && hookCalls == old(hookCalls)
      ensures recordKey.typeId == resourceTypeId ==>
                result == answer.result && ppvObj == answer.obj
                && delegateCalls == old(delegateCalls) + [CreateByRecord(recordKey, riid)]
                && hookCalls == old(hookCalls) + [HookAfterCreate(CreateInstanceByRecord, riid, answer, Some(recordKey))]
    {
      if recordKey.typeId == resourceTypeId {
        delegateCalls := delegateCalls + [CreateByRecord(recordKey, riid)];
        result, ppvObj := answer.result, answer.obj;
        if result {
          hookCalls := hookCalls + [ResourceLoaded(CreateInstanceByRecord, riid, ppvObj)];
        } else {
          hookCalls := hookCalls + [ResourceLoadErrorWithKey(CreateInstanceByRecord, riid, recordKey)];
        }
        return;
      }
      ppvObj := Null;
      result := false;
    }

    /** Read: forwarded; no hook is raised. */
    method Read(answer: bool) returns (result: bool)
      modifies this`delegateCalls
      ensures result == answer
      ensures delegateCalls == old(delegateCalls) + [ReadRecord]
    {
      delegateCalls := delegateCalls + [ReadRecord];
      result := answer;
    }

    /** Write: forwarded; no hook is raised. */
    method Write(answer: bool) returns (result: bool)
      modifies this`delegateCalls
      ensures result == answer
      ensures delegateCalls == old(delegateCalls) + [WriteRecord]
    {
      delegateCalls := delegateCalls + [WriteRecord];
      result := answer;
    }
  }

  /**
   * Construction: the original factory's class object is requested from the
   * host and a std::runtime_error is thrown when it is not available.
   * `originalFactoryFound` is the host's answer.
   */
  method NewResourceFactoryProxy(resourceTypeId: U32, originalFactoryFound: bool)
    returns (proxy: ResourceFactoryProxy?, thrown: Option<string>)
    ensures !originalFactoryFound ==> proxy == null && thrown == Some(FactoryNotFound)
    ensures originalFactoryFound ==>
              thrown.None? && proxy != null && fresh(proxy) && proxy.resourceTypeId == resourceTypeId
              && proxy.delegateCalls == [] && proxy.hookCalls == [] && proxy.baseUnknownCalls == []
  {
    if !originalFactoryFound {
      return null, Some(FactoryNotFound);
    }
    proxy := new ResourceFactoryProxy(resourceTypeId);
    thrown := None;
  }
}
