/**
 * The VST3 plugin factory that `nih_export_vst3!` generates: a fixed, ordered
 * registry of plugin descriptors, built once, and the host's queries over it
 * (`IPluginFactory`, `IPluginFactory2` and `IPluginFactory3`).
 *
 * The macro unrolls over its list of plugin types; here the list is a
 * sequence, and the plugin type at position `k` is named by `k`.
 */
module Vst3 {
  import opened Wrappers
  import opened Abi
  import opened PluginInfos

  /**
   * The descriptors in macro argument order. The macro's `+` repetition takes
   * at least one plugin type, so a registry is never empty.
   */
  type Registry = s: seq<PluginInfo> | |s| >= 1
    witness [PluginInfo([0, 0, 0, 0, 0, 0, 0, 0, 0, 0, 0, 0, 0, 0, 0, 0], Details("", "", "", "", 0, []))]

  /** The message the debug check logs when two descriptors share a class ID. */
  const DuplicateCidsMessage: string := "Duplicate VST3 class IDs found in `nih_export_vst3!()` call"

  /** No two descriptors share a class ID. */
  predicate CidsDistinct(infos: seq<PluginInfo>) {
    forall i, j :: 0 <= i < j < |infos| ==> infos[i].cid != infos[j].cid
  }

  /** The class IDs of the descriptors, collected into a set. */
  function CidSet(infos: seq<PluginInfo>): (s: set<Tuid>)
    ensures |s| <= |infos|
    ensures forall i :: 0 <= i < |infos| ==> infos[i].cid in s
  {
    if infos == [] then {}
    else
      var rest := CidSet(infos[1..]);
      assert forall i :: 0 <= i < |infos| - 1 ==> infos[1..][i] == infos[i + 1];
      {infos[0].cid} + rest
  }

  /** The set holds nothing but the descriptors' class IDs. */
  lemma {:induction false} CidSetOnlyListed(infos: seq<PluginInfo>, c: Tuid)
    requires c in CidSet(infos)
    ensures exists i :: 0 <= i < |infos| && infos[i].cid == c
  {
    if infos[0].cid != c {
      CidSetOnlyListed(infos[1..], c);
      var i :| 0 <= i < |infos| - 1 && infos[1..][i].cid == c;
      assert infos[i + 1].cid == c;
    }
  }

  /**
   * Dropping the first descriptor: the whole registry is distinct exactly when
   * the rest is and the first class ID does not reappear.
   */
  lemma DistinctSplit(infos: seq<PluginInfo>)
    requires infos != []
    ensures CidsDistinct(infos) <==> CidsDistinct(infos[1..]) && infos[0].cid !in CidSet(infos[1..])
  {
    var rest := infos[1..];
    if CidsDistinct(infos) {
      forall i, j | 0 <= i < j < |rest| ensures rest[i].cid != rest[j].cid {
        assert rest[i] == infos[i + 1] && rest[j] == infos[j + 1];
      }
      forall k | 0 <= k < |rest| ensures rest[k].cid != infos[0].cid {
        assert rest[k] == infos[k + 1];
      }
      if infos[0].cid in CidSet(rest) {
        CidSetOnlyListed(rest, infos[0].cid);
      }
    }
    if CidsDistinct(rest) && infos[0].cid !in CidSet(rest) {
      forall i, j | 0 <= i < j < |infos| ensures infos[i].cid != infos[j].cid {
        assert infos[j] == rest[j - 1];
        if i > 0 {
          assert infos[i] == rest[i - 1];
        }
      }
    }
  }

  /**
   * The debug check in `Factory::new` compares the size of the set of class
   * IDs with the number of descriptors: the sizes agree exactly when the class
   * IDs are pairwise distinct.
   */
  lemma {:induction false} UniqueCidsIffDistinct(infos: seq<PluginInfo>)
    ensures |CidSet(infos)| == |infos| <==> CidsDistinct(infos)
  {
    if infos != [] {
      var rest := infos[1..];
      UniqueCidsIffDistinct(rest);
      DistinctSplit(infos);
      assert CidSet(infos) == {infos[0].cid} + CidSet(rest);
      if infos[0].cid in CidSet(rest) {
        assert CidSet(infos) == CidSet(rest);
      } else {
        assert |CidSet(infos)| == |CidSet(rest)| + 1;
      }
    }
  }

  /** The condition `Factory::new` asserts in a debug build. */
  function DebugCheckPasses(infos: seq<PluginInfo>): (ok: bool)
    ensures ok <==> CidsDistinct(infos)
  {
    UniqueCidsIffDistinct(infos);
    |CidSet(infos)| == |infos|
  }

  /**
   * The position `createInstance` stops at: the first descriptor, in
   * registration order, whose class ID equals `cid`.
   */
  function FindCid(infos: seq<PluginInfo>, cid: Tuid): (r: Option<nat>)
    ensures r.Some? ==> r.value < |infos| && infos[r.value].cid == cid
    ensures r.Some? ==> forall j :: 0 <= j < r.value ==> infos[j].cid != cid
    ensures r.None? <==> forall j :: 0 <= j < |infos| ==> infos[j].cid != cid
  {
    if infos == [] then None
    else if infos[0].cid == cid then Some(0)
    else
      var found := FindCid(infos[1..], cid);
      assert forall j :: 1 <= j < |infos| ==> infos[j] == infos[1..][j - 1];
      match found
      case None => None
      case Some(k) => Some(k + 1)
  }

  /**
   * A host that lists class `k` and asks for an instance of the class ID it
   * was told gets a match no later than `k`, and exactly `k` when the class
   * IDs are distinct; the same holds for all three listing queries.
   */
  lemma ListedClassIsCreatable(infos: seq<PluginInfo>, k: nat)
    requires k < |infos|
    ensures CreateClassInfo(infos[k]).cid == infos[k].cid
    ensures CreateClassInfo2(infos[k]).cid == infos[k].cid
    ensures CreateClassInfoUnicode(infos[k]).cid == infos[k].cid
    ensures FindCid(infos, infos[k].cid).Some? && FindCid(infos, infos[k].cid).value <= k
    ensures CidsDistinct(infos) ==> FindCid(infos, infos[k].cid) == Some(k)
  {
  }

  /**
   * What the capability query of a freshly built plugin wrapper answers: its
   * result code and, when it writes one, the pointer it stores in `obj`.
   */
  datatype QueryAnswer = QueryAnswer(result: TResult, written: Option<nat>)

  /** The factory object handed to the host. Its registry never changes. */
  class Factory {
    const pluginInfos: Registry

    constructor (infos: Registry)
      ensures pluginInfos == infos
    {
      pluginInfos := infos;
    }

    /**
     * `Factory::new`: the registry is kept as given. In a debug build a
     * duplicate class ID makes the check log a diagnostic.
     */
    static method New(infos: Registry, debugAssertions: bool) returns (f: Factory, diagnostic: Option<string>)
      ensures fresh(f) && f.pluginInfos == infos
      ensures diagnostic.Some? <==> debugAssertions && !CidsDistinct(infos)
      ensures diagnostic.Some? ==> diagnostic.value == DuplicateCidsMessage
    {
      diagnostic := None;
      if debugAssertions && !DebugCheckPasses(infos) {
        diagnostic := Some(DuplicateCidsMessage);
      }
      f := new Factory(infos);
    }

    /** `countClasses`: the number of descriptors, cast to `int32`. */
    function CountClasses(): (n: int32)
      ensures n as int <= |pluginInfos|
      ensures |pluginInfos| <= MaxInt32 ==> 1 <= n && n as int == |pluginInfos|
    {
      AsInt32(|pluginInfos|)
    }

    /**
     * The bounds test of the three listing queries. Even if the count
     * overflowed its cast, an index it admits is a valid position.
     */
    function IndexInRange(index: int32): (ok: bool)
      ensures ok ==> 0 <= index as int < |pluginInfos|
      ensures |pluginInfos| <= MaxInt32 ==> (ok <==> 0 <= index as int < |pluginInfos|)
    {
      !(index < 0 || index >= CountClasses())
    }

    /**
     * `getFactoryInfo`: a null `info` is refused without a write; otherwise
     * the first descriptor's factory information is written.
     */
    method GetFactoryInfo(info: Cell?<PFactoryInfo>) returns (r: TResult)
      modifies info
      ensures r == kResultOk <==> info != null
      ensures info == null ==> r == kInvalidArgument
      ensures info != null ==> info.value == CreateFactoryInfo(pluginInfos[0])
    {
      if info == null {
        return kInvalidArgument;
      }
      info.value := CreateFactoryInfo(pluginInfos[0]);
      r := kResultOk;
    }

    /**
     * `getClassInfo`: an index outside `0 .. countClasses()` is refused
     * without a write; otherwise the class at `index` is described. The
     * source writes through `info` without a null test, so a caller passing
     * an in-range index must pass a real pointer.
     */
    method GetClassInfo(index: int32, info: Cell?<PClassInfo>) returns (r: TResult)
      requires IndexInRange(index) ==> info != null
      modifies info
      ensures r == kResultOk <==> IndexInRange(index)
      ensures !IndexInRange(index) ==> r == kInvalidArgument && (info != null ==> unchanged(info))
      ensures IndexInRange(index) ==> info.value == CreateClassInfo(pluginInfos[index])
    {
      if index < 0 || index >= CountClasses() {
        return kInvalidArgument;
      }
      info.value := CreateClassInfo(pluginInfos[index]);
      r := kResultOk;
    }

    /** `getClassInfo2`: the same bounds contract, writing the extended record. */
    method GetClassInfo2(index: int32, info: Cell?<PClassInfo2>) returns (r: TResult)
      requires IndexInRange(index) ==> info != null
      modifies info
      ensures r == kResultOk <==> IndexInRange(index)
      ensures !IndexInRange(index) ==> r == kInvalidArgument && (info != null ==> unchanged(info))
      ensures IndexInRange(index) ==> info.value == CreateClassInfo2(pluginInfos[index])
    {
      if index < 0 || index >= CountClasses() {
        return kInvalidArgument;
      }
      info.value := CreateClassInfo2(pluginInfos[index]);
      r := kResultOk;
    }

    /** `getClassInfoUnicode`: the same bounds contract, writing the wide-string record. */
    method GetClassInfoUnicode(index: int32, info: Cell?<PClassInfoW>) returns (r: TResult)
      requires IndexInRange(index) ==> info != null
      modifies info
      ensures r == kResultOk <==> IndexInRange(index)
      ensures !IndexInRange(index) ==> r == kInvalidArgument && (info != null ==> unchanged(info))
      ensures IndexInRange(index) ==> info.value == CreateClassInfoUnicode(pluginInfos[index])
    {
      if index < 0 || index >= CountClasses() {
        return kInvalidArgument;
      }
      info.value := CreateClassInfoUnicode(pluginInfos[index]);
      r := kResultOk;
    }

    /**
     * `createInstance`. A null `cid` or `obj` is refused before anything is
     * read; `iid` is passed on unchecked. The registry is scanned in order and
     * the first descriptor with the requested class ID has its wrapper built
     * (`built`), whose capability query `queryInterface` decides the result
     * and what is stored in `obj`. With no match, no wrapper is built and
     * `obj` is left alone.
     */
    method CreateInstance(cid: Option<Tuid>, iid: Option<Tuid>, obj: Cell?<nat>,
                          queryInterface: (nat, Option<Tuid>) -> QueryAnswer)
      returns (r: TResult, ghost built: Option<nat>)
      modifies obj
      ensures cid.None? || obj == null ==> built.None?
      ensures cid.Some? && obj != null ==> built == FindCid(pluginInfos, cid.value)
      ensures built.None? ==> r == kInvalidArgument && (obj != null ==> unchanged(obj))
      ensures built.Some? ==> obj != null && r == queryInterface(built.value, iid).result
      ensures built.Some? ==> obj.value == match queryInterface(built.value, iid).written
                                            case Some(p) => p
                                            case None => old(obj.value)
    {
      if cid.None? || obj == null {
        return kInvalidArgument, None;
      }
      var requested := cid.value;
      var pluginIdx := 0;
      while pluginIdx < |pluginInfos|
        invariant 0 <= pluginIdx <= |pluginInfos|
        invariant forall j :: 0 <= j < pluginIdx ==> pluginInfos[j].cid != requested
        invariant unchanged(obj)
      {
        if requested == pluginInfos[pluginIdx].cid {
          built := Some(pluginIdx);
          var answer := queryInterface(pluginIdx, iid);
          if answer.written.Some? {
            obj.value := answer.written.value;
          }
          return answer.result, built;
        }
        pluginIdx := pluginIdx + 1;
      }
      r, built := kInvalidArgument, None;
    }

    /** `setHostContext`: accepted and ignored. */
    method SetHostContext(context: object?) returns (r: TResult)
      ensures r == kResultOk
    {
      r := kResultOk;
    }
  }
}
