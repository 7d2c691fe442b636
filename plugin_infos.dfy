/**
 * The type-erased descriptor of one plugin type and the host-facing records
 * built from it. The source defines both in a module that is not part of this
 * model; here every field but the class ID is carried along as an opaque
 * `Details` value, and each record builder keeps the descriptor's class ID
 * and details without modelling layout or string encoding.
 */
module PluginInfos {
  import opened Abi

  /** Everything a descriptor holds besides its class ID. */
  datatype Details = Details(
    name: string,
    vendor: string,
    version: string,
    category: string,
    flags: int32,
    subcategories: seq<string>)

  /** One plugin type's descriptor, keyed by its 16-byte class ID. */
  datatype PluginInfo = PluginInfo(cid: Tuid, details: Details)

  /** `PFactoryInfo`: the vendor information of the whole factory. */
  datatype PFactoryInfo = PFactoryInfo(details: Details)

  /** `PClassInfo`, `PClassInfo2` and `PClassInfoW`: one class described for the host. */
  datatype PClassInfo = PClassInfo(cid: Tuid, details: Details)
  datatype PClassInfo2 = PClassInfo2(cid: Tuid, details: Details)
  datatype PClassInfoW = PClassInfoW(cid: Tuid, details: Details)

  function CreateFactoryInfo(p: PluginInfo): PFactoryInfo {
    PFactoryInfo(p.details)
  }

  function CreateClassInfo(p: PluginInfo): PClassInfo {
    PClassInfo(p.cid, p.details)
  }

  function CreateClassInfo2(p: PluginInfo): PClassInfo2 {
    PClassInfo2(p.cid, p.details)
  }

  function CreateClassInfoUnicode(p: PluginInfo): PClassInfoW {
    PClassInfoW(p.cid, p.details)
  }
}
