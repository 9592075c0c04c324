/**
 * Host types shared by every component: 32-bit unsigned integers, an
 * Option type, the (Type, Group, Instance) resource key and the COM-style
 * interface identifiers that the core compares against.
 */
module GZTypes {

  /** The host's uint32_t. Arithmetic that can leave this range is wrapped explicitly. */
  type U32 = x: int | 0 <= x < 0x1_0000_0000

  const U32Modulus: int := 0x1_0000_0000

  /** uint32_t addition and subtraction wrap modulo 2^32. */
  function WrapU32(x: int): (r: U32)
    ensures 0 <= x < U32Modulus ==> r == x
    ensures x == U32Modulus ==> r == 0
    ensures x == -1 ==> r == U32Modulus - 1
  {
    x % U32Modulus
  }

  datatype Option<T> = None | Some(value: T)

  /** cGZPersistResourceKey: the (Type, Group, Instance) triple identifying a resource. */
  datatype ResourceKey = ResourceKey(typeId: U32, group: U32, instance: U32)

  /**
   * The key equality the patch index uses: all three fields compared.
   * It coincides with Dafny's structural equality on ResourceKey.
   */
  predicate KeysEqual(lhs: ResourceKey, rhs: ResourceKey)
  {
    lhs.instance == rhs.instance && lhs.group == rhs.group && lhs.typeId == rhs.typeId
  }

  lemma KeysEqualIsEquality(lhs: ResourceKey, rhs: ResourceKey)
    ensures KeysEqual(lhs, rhs) <==> lhs == rhs
  {
  }

  /**
   * Interface identifiers (riid values). The core only compares them, so
   * each id it names is a constructor and Other stands for any id distinct
   * from all of them. The plugin's own ids are 0xFC1A55E1 (hook server),
   * 0x80590E91 (load target) and 0x12C54BC2 (load-error target); the host's
   * are declared in SDK headers that are not part of this model.
   */
  datatype InterfaceId =
    | IidUnknown                     // GZIID_cIGZUnknown
    | IidPersistResourceFactory      // GZIID_cIGZPersistResourceFactory
    | IidPersistResource             // GZIID_cIGZPersistResource
    | IidResExemplar                 // GZIID_cISCResExemplar
    | IidExemplarLoadHookServer      // GZIID_cIExemplarLoadHookServer
    | IidExemplarLoadHookTarget      // GZIID_cIExemplarLoadHookTarget
    | IidExemplarLoadErrorHookTarget // GZIID_cIExemplarLoadErrorHookTarget
    | Other(riid: U32)
}
