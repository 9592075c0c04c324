/**
 * The exemplar load hook server of src/ExemplarResourceFactoryProxy.cpp: the
 * resource factory proxy for exemplars that also keeps the registrations of
 * load listeners (each with a group/instance filter) and of load-error
 * listeners, and fans the proxy's hooks out to them.
 *
 * Listeners are identified by pointer; here a listener is a `nat` and 0
 * stands for nullptr. A call made on a listener is recorded in `callbacks`.
 */
module ExemplarHookServer {
  import opened GZTypes
  import opened FactoryHooks
  import Proxy = ResourceFactoryProxy

  /** ExemplarTypeID, the resource type the exemplar proxy serves. */
  const ExemplarTypeId: U32 := 0x6534284A
  /** GZCLSID_SCResExemplarFactory, the class id of the original exemplar factory. */
  const ExemplarFactoryClassId: U32 := 0x453429B3

  /**
   * ExemplarTGIFilter: a group or instance id of 0 includes every value for
   * that item; the instance is only looked at under a non-zero group.
   */
  datatype TgiFilter = TgiFilter(groupId: U32, instanceId: U32)
  {
    predicate IsIncluded(key: ResourceKey)
    {
      if groupId != 0 then
        if instanceId != 0 then key.group == groupId && key.instance == instanceId
        else key.group == groupId
      else true
    }
  }

  /** The three cases of the filter rule; a group of 0 includes every key whatever the instance. */
  lemma IsIncludedSpec(filter: TgiFilter, key: ResourceKey)
    ensures filter.groupId == 0 ==> filter.IsIncluded(key)
    ensures filter.groupId != 0 && filter.instanceId == 0 ==> (filter.IsIncluded(key) <==> key.group == filter.groupId)
    ensures filter.groupId != 0 && filter.instanceId != 0 ==>
              (filter.IsIncluded(key) <==> key.group == filter.groupId && key.instance == filter.instanceId)
  {
  }

  /** The filter never looks at the key's type. */
  lemma IsIncludedIgnoresType(filter: TgiFilter, key: ResourceKey, otherType: U32)
    ensures filter.IsIncluded(key) == filter.IsIncluded(ResourceKey(otherType, key.group, key.instance))
  {
  }

  /** The address of a live listener object, which is never nullptr. */
  type ListenerAddress = t: nat | t != 0 witness 1

  /** A call made on a listener. */
  datatype Callback =
    | ExemplarLoaded(target: nat, functionName: FunctionSig, key: ResourceKey)
    | LoadError(target: nat, functionName: FunctionSig, riid: InterfaceId)
    | LoadErrorWithKey(target: nat, functionName: FunctionSig, riid: InterfaceId, key: ResourceKey)

  /** Each listener of `callees` is called once, and no other listener is called. */
  predicate CallsEachOnce(calls: seq<Callback>, callees: set<nat>)
  {
    && (forall i | 0 <= i < |calls| :: calls[i].target in callees)
    && (forall t | t in callees :: exists i | 0 <= i < |calls| :: calls[i].target == t)
    && (forall i, j | 0 <= i < j < |calls| :: calls[i].target != calls[j].target)
  }

  /** So the number of calls is the number of listeners that had to be called. */
  lemma {:induction false} CallsEachOnceCount(calls: seq<Callback>, callees: set<nat>)
    requires CallsEachOnce(calls, callees)
    ensures |calls| == |callees|
  {
    if calls == [] {
      assert callees == {};
    } else {
      var n := |calls| - 1;
      var last := calls[n].target;
      var rest := calls[..n];
      forall t | t in callees - {last}
        ensures exists i | 0 <= i < |rest| :: rest[i].target == t
      {
        var i :| 0 <= i < |calls| && calls[i].target == t;
        assert rest[i].target == t;
      }
      assert CallsEachOnce(rest, callees - {last});
      CallsEachOnceCount(rest, callees - {last});
    }
  }

  /** The load listeners whose filter includes `key`. */
  function LoadCallees(targets: map<nat, TgiFilter>, key: ResourceKey): (callees: set<nat>)
    ensures forall t :: t in callees <==> t in targets && t != 0 && targets[t].IsIncluded(key)
  {
    set t | t in targets && t != 0 && targets[t].IsIncluded(key)
  }

  /**
   * The conditions ResourceLoaded tests before calling anyone: a load
   * listener is registered, the resource interface was requested, the
   * created object is not null and it is an exemplar.
   */
  predicate LoadDispatchApplies(targets: map<nat, TgiFilter>, riid: InterfaceId, obj: ObjectPtr)
  {
    |targets| > 0 && riid == IidPersistResource && obj.Resource? && obj.exposesExemplar
  }

  /** A registration table with a filter of group 0 calls every registered listener on any load. */
  lemma AnyGroupListenerIsCalled(targets: map<nat, TgiFilter>, t: nat, key: ResourceKey)
    requires t in targets && t != 0 && targets[t].groupId == 0
    ensures t in LoadCallees(targets, key)
  {
  }

  /**
   * What registering a load listener does to the table: a non-null target
   * that is not yet registered is added with its filter; emplace never
   * overwrites an existing registration.
   */
  function EmplaceLoadTarget(targets: map<nat, TgiFilter>, target: nat, filter: TgiFilter): (r: map<nat, TgiFilter>)
    ensures target != 0 && target !in targets ==> r == targets[target := filter]
    ensures target == 0 || target in targets ==> r == targets
  {
    if target != 0 && target !in targets then targets[target := filter] else targets
  }

  /** A second registration of the same listener changes nothing, whatever its filter. */
  lemma EmplaceKeepsFirstFilter(targets: map<nat, TgiFilter>, target: nat, first: TgiFilter, second: TgiFilter)
    ensures var once := EmplaceLoadTarget(targets, target, first);
            EmplaceLoadTarget(once, target, second) == once
            && (target != 0 ==> target in once && (target !in targets ==> once[target] == first))
  {
  }

  /** Registering a new listener and removing it again restores the table. */
  lemma EmplaceThenRemove(targets: map<nat, TgiFilter>, target: nat, filter: TgiFilter)
    requires target !in targets
    ensures EmplaceLoadTarget(targets, target, filter) - {target} == targets
  {
  }

  class ExemplarResourceFactoryProxy {
    /** The ResourceFactoryProxy base-class part. */
    const proxy: Proxy.ResourceFactoryProxy
    /** std::unordered_map<cIExemplarLoadHookTarget*, ExemplarTGIFilter> */
    var exemplarLoadTargets: map<nat, TgiFilter>
    /** std::unordered_set<cIExemplarLoadErrorHookTarget*> */
    var exemplarLoadErrorTargets: set<nat>
    /** The calls made on listeners, oldest first. */
    var callbacks: seq<Callback>

    /** nullptr is never registered. */
    predicate Valid()
      reads this
    {
      0 !in exemplarLoadTargets && 0 !in exemplarLoadErrorTargets
    }

    constructor (proxy: Proxy.ResourceFactoryProxy)
      ensures this.proxy == proxy
      ensures exemplarLoadTargets == map[] && exemplarLoadErrorTargets == {} && callbacks == []
      ensures Valid()
    {
      this.proxy := proxy;
      exemplarLoadTargets := map[];
      exemplarLoadErrorTargets := {};
      callbacks := [];
    }

    /**
     * AddLoadNotification(target, group, instance): emplace, which does not
     * overwrite, so a listener already registered keeps its first filter.
     */
    method AddLoadNotificationForGroupAndInstance(target: nat, groupId: U32, instanceId: U32) returns (result: bool)
      requires Valid()
      modifies this`exemplarLoadTargets
      ensures Valid()
      ensures result <==> target != 0 && target !in old(exemplarLoadTargets)
      ensures exemplarLoadTargets == EmplaceLoadTarget(old(exemplarLoadTargets), target, TgiFilter(groupId, instanceId))
    {
      result := false;
      if target != 0 {
        if target !in exemplarLoadTargets {
          exemplarLoadTargets := exemplarLoadTargets[target := TgiFilter(groupId, instanceId)];
          result := true;
        }
      }
    }

    /** AddLoadNotification(target, group): every instance of the group. */
    method AddLoadNotificationForGroup(target: nat, groupId: U32) returns (result: bool)
      requires Valid()
      modifies this`exemplarLoadTargets
      ensures Valid()
      ensures result <==> target != 0 && target !in old(exemplarLoadTargets)
      ensures exemplarLoadTargets == EmplaceLoadTarget(old(exemplarLoadTargets), target, TgiFilter(groupId, 0))
    {
      result := AddLoadNotificationForGroupAndInstance(target, groupId, 0);
    }

    /** AddLoadNotification(target): every exemplar. */
    method AddLoadNotification(target: nat) returns (result: bool)
      requires Valid()
      modifies this`exemplarLoadTargets
      ensures Valid()
      ensures result <==> target != 0 && target !in old(exemplarLoadTargets)
      ensures exemplarLoadTargets == EmplaceLoadTarget(old(exemplarLoadTargets), target, TgiFilter(0, 0))
    {
      result := AddLoadNotificationForGroupAndInstance(target, 0, 0);
    }

    /** RemoveLoadNotification: true iff erase removed one registration. */
    method RemoveLoadNotification(target: nat) returns (result: bool)
      requires Valid()
      modifies this`exemplarLoadTargets
      ensures Valid()
      ensures result <==> target != 0 && target in old(exemplarLoadTargets)
      ensures exemplarLoadTargets == old(exemplarLoadTargets) - {target}
    {
      result := false;
      if target != 0 {
        result := target in exemplarLoadTargets;
        exemplarLoadTargets := exemplarLoadTargets - {target};
      }
    }

    /** AddLoadErrorNotification: a set insertion; a duplicate is refused. */
    method AddLoadErrorNotification(target: nat) returns (result: bool)
      requires Valid()
      modifies this`exemplarLoadErrorTargets
      ensures Valid()
      ensures result <==> target != 0 && target !in old(exemplarLoadErrorTargets)
      ensures exemplarLoadErrorTargets == if target != 0 then old(exemplarLoadErrorTargets) + {target}
                                          else old(exemplarLoadErrorTargets)
    {
      result := false;
      if target != 0 {
        result := target !in exemplarLoadErrorTargets;
        exemplarLoadErrorTargets := exemplarLoadErrorTargets + {target};
      }
    }

    /** RemoveLoadErrorNotification: true iff erase removed the listener. */
    method RemoveLoadErrorNotification(target: nat) returns (result: bool)
      requires Valid()
      modifies this`exemplarLoadErrorTargets
      ensures Valid()
      ensures result <==> target != 0 && target in old(exemplarLoadErrorTargets)
      ensures exemplarLoadErrorTargets == old(exemplarLoadErrorTargets) - {target}
    {
      result := false;
      if target != 0 {
        result := target in exemplarLoadErrorTargets;
        exemplarLoadErrorTargets := exemplarLoadErrorTargets - {target};
      }
    }

    /**
     * ResourceLoaded: when the dispatch conditions hold, every load listener
     * whose filter includes the key of the created resource is called once,
     * in the map's unspecified iteration order.
     */
    method ResourceLoaded(functionName: FunctionSig, riid: InterfaceId, obj: ObjectPtr)
      modifies this`callbacks
      ensures |callbacks| >= |old(callbacks)| && callbacks[..|old(callbacks)|] == old(callbacks)
      ensures !LoadDispatchApplies(exemplarLoadTargets, riid, obj) ==> callbacks == old(callbacks)
      ensures LoadDispatchApplies(exemplarLoadTargets, riid, obj) ==>
                var calls := callbacks[|old(callbacks)|..];
                && CallsEachOnce(calls, LoadCallees(exemplarLoadTargets, obj.key))
                && forall i | 0 <= i < |calls| :: calls[i] == ExemplarLoaded(calls[i].target, functionName, obj.key)
    {
      if |exemplarLoadTargets| > 0 && riid == IidPersistResource && obj.Resource? {
        var key := obj.key;
        if obj.exposesExemplar {
          ghost var callees := LoadCallees(exemplarLoadTargets, key);
          ghost var calls: seq<Callback> := [];
          var remaining := exemplarLoadTargets.Keys;
          while remaining != {}
            invariant remaining <= exemplarLoadTargets.Keys
            invariant callbacks == old(callbacks) + calls
            invariant forall i | 0 <= i < |calls| :: calls[i] == ExemplarLoaded(calls[i].target, functionName, key)
            invariant forall i | 0 <= i < |calls| :: calls[i].target in callees && calls[i].target !in remaining
            invariant forall t | t in callees && t !in remaining :: exists i | 0 <= i < |calls| :: calls[i].target == t
            invariant forall i, j | 0 <= i < j < |calls| :: calls[i].target != calls[j].target
            decreases remaining
          {
            var temp :| temp in remaining;
            var filter := exemplarLoadTargets[temp];
            if temp != 0 && filter.IsIncluded(key) {
              ghost var prev := calls;
              callbacks := callbacks + [ExemplarLoaded(temp, functionName, key)];
              calls := calls + [ExemplarLoaded(temp, functionName, key)];
              assert calls[|calls| - 1].target == temp;
              assert forall i | 0 <= i < |prev| :: calls[i] == prev[i];
            }
            remaining := remaining - {temp};
          }
          assert callbacks[|old(callbacks)|..] == calls;
        }
      }
    }

    /**
     * Both ResourceLoadError overloads: every load-error listener is called
     * once, with no filtering; `key` is the record's key in the overload
     * that has one.
     */
    method ResourceLoadError(functionName: FunctionSig, riid: InterfaceId, key: Option<ResourceKey>)
      modifies this`callbacks
      ensures |callbacks| >= |old(callbacks)| && callbacks[..|old(callbacks)|] == old(callbacks)
      ensures var calls := callbacks[|old(callbacks)|..];
              && CallsEachOnce(calls, exemplarLoadErrorTargets - {0})
              && forall i | 0 <= i < |calls| :: calls[i] == ErrorCallback(calls[i].target, functionName, riid, key)
    {
      if |exemplarLoadErrorTargets| > 0 {
        ghost var callees := exemplarLoadErrorTargets - {0};
        ghost var calls: seq<Callback> := [];
        var remaining := exemplarLoadErrorTargets;
        while remaining != {}
          invariant remaining <= exemplarLoadErrorTargets
          invariant callbacks == old(callbacks) + calls
          invariant forall i | 0 <= i < |calls| :: calls[i] == ErrorCallback(calls[i].target, functionName, riid, key)
          invariant forall i | 0 <= i < |calls| :: calls[i].target in callees && calls[i].target !in remaining
          invariant forall t | t in callees && t !in remaining :: exists i | 0 <= i < |calls| :: calls[i].target == t
          invariant forall i, j | 0 <= i < j < |calls| :: calls[i].target != calls[j].target
          decreases remaining
        {
          var temp :| temp in remaining;
          if temp != 0 {
            var call := ErrorCallback(temp, functionName, riid, key);
            ghost var prev := calls;
            callbacks := callbacks + [call];
            calls := calls + [call];
            assert calls[|calls| - 1].target == temp;
            assert forall i | 0 <= i < |prev| :: calls[i] == prev[i];
          }
          remaining := remaining - {temp};
        }
        assert callbacks[|old(callbacks)|..] == calls;
      } else {
        assert callbacks[|old(callbacks)|..] == [];
      }
    }

    /**
     * The virtual-hook dispatch: the base proxy's hook call lands in the
     * matching override, which calls its listeners with the hook's function
     * name, interface and key.
     */
    method OnHook(h: HookCall)
      modifies this`callbacks
      ensures |callbacks| >= |old(callbacks)| && callbacks[..|old(callbacks)|] == old(callbacks)
      ensures h.ResourceLoaded? && !LoadDispatchApplies(exemplarLoadTargets, h.riid, h.obj) ==> callbacks == old(callbacks)
      ensures h.ResourceLoaded? && LoadDispatchApplies(exemplarLoadTargets, h.riid, h.obj) ==>
                var calls := callbacks[|old(callbacks)|..];
                && CallsEachOnce(calls, LoadCallees(exemplarLoadTargets, h.obj.key))
                && forall i | 0 <= i < |calls| :: calls[i] == ExemplarLoaded(calls[i].target, h.functionName, h.obj.key)
      ensures !h.ResourceLoaded? ==>
                var calls := callbacks[|old(callbacks)|..];
                && CallsEachOnce(calls, exemplarLoadErrorTargets - {0})
                && forall i | 0 <= i < |calls| ::
                     calls[i] == ErrorCallback(calls[i].target, h.functionName, h.riid, HookKey(h))
    {
      match h
      case ResourceLoaded(fn, riid, obj) => ResourceLoaded(fn, riid, obj);
      case ResourceLoadError(fn, riid) => ResourceLoadError(fn, riid, None);
      case ResourceLoadErrorWithKey(fn, riid, key) => ResourceLoadError(fn, riid, Some(key));
    }

    /**
     * CreateInstance(type, ...) on the exemplar proxy: the base proxy's
     * routing, followed by the listener fan-out of the hook it raised.
     */
    method CreateInstance(typeId: U32, riid: InterfaceId, answer: DelegateAnswer)
      returns (result: bool, ppvObj: ObjectPtr)
      requires !proxy.destroyed && proxy.resourceTypeId == ExemplarTypeId
      modifies this`callbacks, proxy`delegateCalls, proxy`hookCalls
      ensures |callbacks| >= |old(callbacks)| && callbacks[..|old(callbacks)|] == old(callbacks)
      ensures typeId != ExemplarTypeId ==>
                !result && ppvObj == Null && callbacks == old(callbacks)
                && proxy.delegateCalls == old(proxy.delegateCalls) && proxy.hookCalls == old(proxy.hookCalls)
      ensures typeId == ExemplarTypeId ==>
                result == answer.result && ppvObj == answer.obj
                && proxy.delegateCalls == old(proxy.delegateCalls) + [CreateByType(typeId, riid)]
                && proxy.hookCalls == old(proxy.hookCalls) + [HookAfterCreate(CreateInstanceByType, riid, answer, None)]
      ensures typeId == ExemplarTypeId && answer.result ==> CreatedCallbacks(old(callbacks), riid, answer.obj, CreateInstanceByType)
      ensures typeId == ExemplarTypeId && !answer.result ==> ErrorCallbacks(old(callbacks), riid, None, CreateInstanceByType)
    {
      result, ppvObj := proxy.CreateInstance(typeId, riid, answer);
      if typeId == ExemplarTypeId {
        OnHook(HookAfterCreate(CreateInstanceByType, riid, answer, None));
      }
    }

    /**
     * CreateInstance(record, ...) on the exemplar proxy: the base proxy's
     * routing on the record key's type, followed by the listener fan-out of
     * the hook it raised; a failure reaches the error listeners with the key.
     */
    method CreateInstanceFromRecord(recordKey: ResourceKey, riid: InterfaceId, answer: DelegateAnswer)
      returns (result: bool, ppvObj: ObjectPtr)
      requires !proxy.destroyed && proxy.resourceTypeId == ExemplarTypeId
      modifies this`callbacks, proxy`delegateCalls, proxy`hookCalls
      ensures |callbacks| >= |old(callbacks)| && callbacks[..|old(callbacks)|] == old(callbacks)
      ensures recordKey.typeId != ExemplarTypeId ==>
                !result && ppvObj == Null && callbacks == old(callbacks)
                && proxy.delegateCalls == old(proxy.delegateCalls) && proxy.hookCalls == old(proxy.hookCalls)
      ensures recordKey.typeId == ExemplarTypeId ==>
                result == answer.result && ppvObj == answer.obj
                && proxy.delegateCalls == old(proxy.delegateCalls) + [CreateByRecord(recordKey, riid)]
                && proxy.hookCalls == old(proxy.hookCalls) + [HookAfterCreate(CreateInstanceByRecord, riid, answer, Some(recordKey))]
      ensures recordKey.typeId == ExemplarTypeId && answer.result ==>
                CreatedCallbacks(old(callbacks), riid, answer.obj, CreateInstanceByRecord)
      ensures recordKey.typeId == ExemplarTypeId && !answer.result ==>
                ErrorCallbacks(old(callbacks), riid, Some(recordKey), CreateInstanceByRecord)
    {
      result, ppvObj := proxy.CreateInstanceFromRecord(recordKey, riid, answer);
      if recordKey.typeId == ExemplarTypeId {
        OnHook(HookAfterCreate(CreateInstanceByRecord, riid, answer, Some(recordKey)));
      }
    }

    /**
     * The listener calls after a successful create, `before` being the
     * calls made earlier: when the dispatch applies, each including load
     * listener once with the created resource's key; otherwise none.
     */
    ghost predicate CreatedCallbacks(before: seq<Callback>, riid: InterfaceId, obj: ObjectPtr, functionName: FunctionSig)
      reads this
    {
      && |callbacks| >= |before| && callbacks[..|before|] == before
      && (!LoadDispatchApplies(exemplarLoadTargets, riid, obj) ==> callbacks == before)
      && (LoadDispatchApplies(exemplarLoadTargets, riid, obj) ==>
            var calls := callbacks[|before|..];
            && CallsEachOnce(calls, LoadCallees(exemplarLoadTargets, obj.key))
            && forall i | 0 <= i < |calls| :: calls[i] == ExemplarLoaded(calls[i].target, functionName, obj.key))
    }

    /** The listener calls after a failed create: each error listener once, with the overload's key. */
    ghost predicate ErrorCallbacks(before: seq<Callback>, riid: InterfaceId, key: Option<ResourceKey>, functionName: FunctionSig)
      reads this
    {
      && |callbacks| >= |before| && callbacks[..|before|] == before
      && var calls := callbacks[|before|..];
         && CallsEachOnce(calls, exemplarLoadErrorTargets - {0})
         && forall i | 0 <= i < |calls| :: calls[i] == ErrorCallback(calls[i].target, functionName, riid, key)
    }

    /**
     * QueryInterface: the hook-server interface is answered here and takes
     * a reference on the base proxy; every other id is the base proxy's.
     */
    method QueryInterface(riid: InterfaceId) returns (ok: bool, ppvObj: ExemplarResourceFactoryProxy?)
      requires !proxy.destroyed
      modifies proxy`refCount, proxy`originalFactoryRefCount
      ensures ok <==> riid in {IidExemplarLoadHookServer, IidPersistResourceFactory, IidUnknown}
      ensures ok ==> ppvObj == this && proxy.refCount == WrapU32(old(proxy.refCount) + 1)
      ensures !ok ==> ppvObj == null && proxy.refCount == old(proxy.refCount)
      ensures proxy.originalFactoryRefCount == old(proxy.originalFactoryRefCount)
    {
      if riid == IidExemplarLoadHookServer {
        var _ := proxy.AddRef();
        return true, this;
      }
      var self;
      ok, self := proxy.QueryInterface(riid);
      ppvObj := if ok then this else null;
    }
  }

  /** The record key a load-error hook carries, in the overload that has one. */
  function HookKey(h: HookCall): (key: Option<ResourceKey>)
    ensures key.Some? <==> h.ResourceLoadErrorWithKey?
    ensures key.Some? ==> key.value == h.key
  {
    if h.ResourceLoadErrorWithKey? then Some(h.key) else None
  }

  /** The listener call matching a ResourceLoadError overload. */
  function ErrorCallback(target: nat, functionName: FunctionSig, riid: InterfaceId, key: Option<ResourceKey>): (c: Callback)
    ensures !c.ExemplarLoaded? && c.target == target && c.functionName == functionName && c.riid == riid
    ensures c.LoadErrorWithKey? <==> key.Some?
    ensures c.LoadErrorWithKey? ==> c.key == key.value
  {
    if key.Some? then LoadErrorWithKey(target, functionName, riid, key.value) else LoadError(target, functionName, riid)
  }

  /**
   * The ExemplarResourceFactoryProxy constructor: the base proxy for the
   * exemplar type over the original exemplar factory, which throws when the
   * host does not have that factory.
   */
  method NewExemplarResourceFactoryProxy(originalFactory: Option<int>)
    returns (server: ExemplarResourceFactoryProxy?, thrown: Option<string>)
    ensures originalFactory.None? ==> server == null && thrown == Some(FactoryNotFound)
    ensures originalFactory.Some? ==>
              thrown.None? && server != null && fresh(server) && fresh(server.proxy) && server.Valid()
              && server.proxy.resourceTypeId == ExemplarTypeId && server.proxy.refCount == 0 && !server.proxy.destroyed
              && server.exemplarLoadTargets == map[] && server.exemplarLoadErrorTargets == {}
              && server.callbacks == [] && server.proxy.delegateCalls == [] && server.proxy.hookCalls == []
  {
    var proxy;
    proxy, thrown := Proxy.NewResourceFactoryProxy(ExemplarTypeId, originalFactory);
    if proxy == null {
      return null, thrown;
    }
    server := new ExemplarResourceFactoryProxy(proxy);
  }
}
