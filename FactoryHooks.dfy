/**
 * The vocabulary shared by both copies of ResourceFactoryProxy: what the
 * wrapped ("original") factory answers, the calls the proxy makes on it,
 * and the calls the proxy makes on its own virtual hooks ResourceLoaded and
 * ResourceLoadError (declared in ResourceFactoryProxy.h).
 */
module FactoryHooks {
  import opened GZTypes

  /** The __FUNCSIG__ text naming the proxy method that raised a hook. */
  datatype FunctionSig = CreateInstanceByType | CreateInstanceByRecord

  /**
   * What *ppvObj points to: null, or a resource with its key that may or may
   * not also expose the cISCResExemplar interface.
   */
  datatype ObjectPtr = Null | Resource(key: ResourceKey, exposesExemplar: bool)

  /**
   * One answer of the wrapped factory's CreateInstance: its return value and
   * what it left in *ppvObj. The wrapped factory is host code, so the model
   * receives its answer as an input of each call.
   */
  datatype DelegateAnswer = DelegateAnswer(result: bool, obj: ObjectPtr)

  /** A call forwarded to the wrapped factory. */
  datatype DelegateCall =
    | CreateByType(typeId: U32, riid: InterfaceId)
    | CreateByRecord(recordKey: ResourceKey, riid: InterfaceId)
    | ReadRecord
    | WriteRecord

  /** A call of the proxy's own virtual hooks. */
  datatype HookCall =
    | ResourceLoaded(functionName: FunctionSig, riid: InterfaceId, obj: ObjectPtr)
    | ResourceLoadError(functionName: FunctionSig, riid: InterfaceId)
    | ResourceLoadErrorWithKey(functionName: FunctionSig, riid: InterfaceId, key: ResourceKey)

  /** The message of the std::runtime_error thrown when the original factory cannot be obtained. */
  const FactoryNotFound: string := "Failed to create the original resource factory."

  /**
   * The one hook a CreateInstance call for the proxy's own type raises once
   * the wrapped factory has answered: ResourceLoaded on success, otherwise
   * ResourceLoadError, which carries the record's key in the record overload.
   */
  function HookAfterCreate(functionName: FunctionSig, riid: InterfaceId, answer: DelegateAnswer,
                           recordKey: Option<ResourceKey>): (h: HookCall)
    ensures h.functionName == functionName && h.riid == riid
    ensures h.ResourceLoaded? <==> answer.result
    ensures h.ResourceLoaded? ==> h.obj == answer.obj
    ensures h.ResourceLoadErrorWithKey? <==> !answer.result && recordKey.Some?
    ensures h.ResourceLoadErrorWithKey? ==> h.key == recordKey.value
  {
    if answer.result then ResourceLoaded(functionName, riid, answer.obj)
    else if recordKey.Some? then ResourceLoadErrorWithKey(functionName, riid, recordKey.value)
    else ResourceLoadError(functionName, riid)
  }
}
