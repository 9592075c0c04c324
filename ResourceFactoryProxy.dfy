/**
 * The resource factory proxy of src/ResourceFactoryProxy.cpp: it stands in
 * for the host's factory of one resource type, forwards every call to the
 * wrapped factory and raises one load or load-error hook per CreateInstance
 * for its type. This copy keeps its own COM reference count.
 */
module ResourceFactoryProxy {
  import opened GZTypes
  import opened FactoryHooks

  class ResourceFactoryProxy {
    const resourceTypeId: U32
    /** uint32_t refCount; starts at 0. */
    var refCount: U32
    /** Set by `delete this`; a destroyed proxy must not be used again. */
    var destroyed: bool
    /** The wrapped factory's reference count as far as this proxy changes it. */
    var originalFactoryRefCount: int
    /** The calls forwarded to the wrapped factory, oldest first. */
    var delegateCalls: seq<DelegateCall>
    /** The calls of the virtual hooks ResourceLoaded / ResourceLoadError, oldest first. */
    var hookCalls: seq<HookCall>

    /** The constructor, once the original factory was obtained (the member-initialiser list). */
    constructor (resourceTypeId: U32, originalFactoryRefCount: int)
      ensures this.resourceTypeId == resourceTypeId
      ensures refCount == 0 && !destroyed
      ensures this.originalFactoryRefCount == originalFactoryRefCount
      ensures delegateCalls == [] && hookCalls == []
    {
      this.resourceTypeId := resourceTypeId;
      refCount := 0;
      destroyed := false;
      this.originalFactoryRefCount := originalFactoryRefCount;
      delegateCalls := [];
      hookCalls := [];
    }

    /**
     * AddRef: the wrapped factory's AddRef and Release bracket the increment,
     * so only the proxy's own count changes; it wraps like uint32_t.
     */
    method AddRef() returns (count: U32)
      requires !destroyed
      modifies this`refCount, this`originalFactoryRefCount
      ensures refCount == WrapU32(old(refCount) + 1) && count == refCount
      ensures originalFactoryRefCount == old(originalFactoryRefCount)
    {
      originalFactoryRefCount := originalFactoryRefCount + 1;
      refCount := WrapU32(refCount + 1);
      originalFactoryRefCount := originalFactoryRefCount - 1;
      count := refCount;
    }

    /**
     * Release: at a count of 1 the proxy deletes itself and returns 0;
     * otherwise it stores and returns refCount - 1 computed in uint32_t, so a
     * count of 0 wraps to 0xFFFFFFFF.
     */
    method Release() returns (count: U32)
      requires !destroyed
      modifies this`refCount, this`destroyed, this`originalFactoryRefCount
      ensures old(refCount) == 1 ==> count == 0 && destroyed && refCount == old(refCount)
      ensures old(refCount) != 1 ==> count == WrapU32(old(refCount) - 1) && refCount == count && !destroyed
      ensures originalFactoryRefCount == old(originalFactoryRefCount)
    {
      var localRefCount: U32 := 0;
      originalFactoryRefCount := originalFactoryRefCount + 1;
      if refCount == 1 {
        originalFactoryRefCount := originalFactoryRefCount - 1;
        destroyed := true;
        localRefCount := 0;
      } else {
        localRefCount := WrapU32(refCount - 1);
        refCount := localRefCount;
        originalFactoryRefCount := originalFactoryRefCount - 1;
      }
      count := localRefCount;
    }

    /**
     * QueryInterface: the factory and unknown interfaces are this object and
     * take a reference; any other id yields null and false.
     */
    method QueryInterface(riid: InterfaceId) returns (ok: bool, ppvObj: ResourceFactoryProxy?)
      requires !destroyed
      modifies this`refCount, this`originalFactoryRefCount
      ensures ok <==> riid == IidPersistResourceFactory || riid == IidUnknown
      ensures ok ==> ppvObj == this && refCount == WrapU32(old(refCount) + 1)
      ensures !ok ==> ppvObj == null && refCount == old(refCount)
      ensures originalFactoryRefCount == old(originalFactoryRefCount)
    {
      if riid == IidPersistResourceFactory {
        ppvObj := this;
        var _ := AddRef();
        ok := true;
      } else if riid == IidUnknown {
        ppvObj := this;
        var _ := AddRef();
        ok := true;
      } else {
        ppvObj := null;
        ok := false;
      }
    }

    /**
     * CreateInstance(type, riid, ppvObj, ...): a type other than the proxy's
     * clears *ppvObj and returns false without calling anything; the proxy's
     * own type is forwarded, its answer returned unchanged, and exactly one
     * hook raised. `answer` is what the wrapped factory answers if called.
     */
    method CreateInstance(typeId: U32, riid: InterfaceId, answer: DelegateAnswer)
      returns (result: bool, ppvObj: ObjectPtr)
      requires !destroyed
      modifies this`delegateCalls, this`hookCalls
      ensures typeId != resourceTypeId ==>
                !result && ppvObj == Null && delegateCalls == old(delegateCalls) && hookCalls == old(hookCalls)
      ensures typeId == resourceTypeId ==>
                result == answer.result && ppvObj == answer.obj
                && delegateCalls == old(delegateCalls) + [CreateByType(typeId, riid)]
                && hookCalls == old(hookCalls) + [HookAfterCreate(CreateInstanceByType, riid, answer, None)]
    {
      if typeId == resourceTypeId {
        delegateCalls := delegateCalls + [CreateByType(typeId, riid)];
        result, ppvObj := answer.result, answer.obj;
        if result {
          hookCalls := hookCalls + [ResourceLoaded(CreateInstanceByType, riid, ppvObj)];
        } else {
          hookCalls := hookCalls + [ResourceLoadError(CreateInstanceByType, riid)];
        }
        return;
      }
      ppvObj := Null;
      result := false;
    }

    /**
     * CreateInstance(record, riid, ppvObj, ...): the same routing on the type
     * in the record's key; a failure is reported with that key.
     */
    method CreateInstanceFromRecord(recordKey: ResourceKey, riid: InterfaceId, answer: DelegateAnswer)
      returns (result: bool, ppvObj: ObjectPtr)
      requires !destroyed
      modifies this`delegateCalls, this`hookCalls
      ensures recordKey.typeId != resourceTypeId ==>
                !result && ppvObj == Null && delegateCalls == old(delegateCalls) && hookCalls == old(hookCalls)
      ensures recordKey.typeId == resourceTypeId ==>
                result == answer.result && ppvObj == answer.obj
                && delegateCalls == old(delegateCalls) + [CreateByRecord(recordKey, riid)]
                && hookCalls == old(hookCalls) + [HookAfterCreate(CreateInstanceByRecord, riid, answer, Some(recordKey))]
    {
      if recordKey.typeId == resourceTypeId {
        delegateCalls := delegateCalls + [CreateByRecord(recordKey, riid)];
        result, ppvObj := answer.result, answer.obj;
        if result {
          hookCalls := hookCalls + [ResourceLoaded(CreateInstanceByRecord, riid, ppvObj)];
        } else {
          hookCalls := hookCalls + [ResourceLoadErrorWithKey(CreateInstanceByRecord, riid, recordKey)];
        }
        return;
      }
      ppvObj := Null;
      result := false;
    }

    /** Read: forwarded; the wrapped factory's result is returned and no hook is raised. */
    method Read(answer: bool) returns (result: bool)
      requires !destroyed
      modifies this`delegateCalls
      ensures result == answer
      ensures delegateCalls == old(delegateCalls) + [ReadRecord]
      ensures hookCalls == old(hookCalls)
    {
      delegateCalls := delegateCalls + [ReadRecord];
      result := answer;
    }

    /** Write: forwarded; the wrapped factory's result is returned and no hook is raised. */
    method Write(answer: bool) returns (result: bool)
      requires !destroyed
      modifies this`delegateCalls
      ensures result == answer
      ensures delegateCalls == old(delegateCalls) + [WriteRecord]
      ensures hookCalls == old(hookCalls)
    {
      delegateCalls := delegateCalls + [WriteRecord];
      result := answer;
    }
  }

  /**
   * Construction: CreateOriginalFactory asks the host COM object for the
   * original factory's class object and throws when it is not there.
   * `originalFactory` is the reference count of the obtained factory, None
   * when GetClassObject fails.
   */
  method NewResourceFactoryProxy(resourceTypeId: U32, originalFactory: Option<int>)
    returns (proxy: ResourceFactoryProxy?, thrown: Option<string>)
    ensures originalFactory.None? ==> proxy == null && thrown == Some(FactoryNotFound)
    ensures originalFactory.Some? ==>
              thrown.None? && proxy != null && fresh(proxy)
              && proxy.resourceTypeId == resourceTypeId && proxy.refCount == 0 && !proxy.destroyed
              && proxy.originalFactoryRefCount == originalFactory.value
              && proxy.delegateCalls == [] && proxy.hookCalls == []
  {
    if originalFactory.None? {
      return null, Some(FactoryNotFound);
    }
    proxy := new ResourceFactoryProxy(resourceTypeId, originalFactory.value);
    thrown := None;
  }
}
