# VST3 plugin factory of NIH-plug, modelled in Dafny

The `nih_export_vst3!` macro exports one or more plugin types from a library
as a VST3 module. Its core is the plugin factory the host talks to. The
factory holds a fixed, ordered array of plugin descriptors (`PluginInfo`),
one per exported plugin type in macro argument order. Each descriptor is
keyed by a 16-byte class ID. The factory answers the host's
`IPluginFactory`, `IPluginFactory2` and `IPluginFactory3` queries over that
array:

- how many classes there are;
- a description of the class at an index, in three record shapes;
- the factory's vendor information, taken from the first descriptor;
- building an instance of the class with a given class ID.

In a debug build, construction also checks that no two descriptors share a
class ID.

The model has four modules:

- `Wrappers` (`wrappers.dfy`): the `Option` type.
- `Abi` (`abi.dfy`): the ABI values the factory exchanges. These are
  `int32`, the `tresult` codes `kResultOk` and `kInvalidArgument`, the
  16-byte `Tuid`, and Rust's truncating `usize as i32` cast (`AsInt32`).
  `Cell<T>` is caller-owned memory behind an out pointer. A null pointer is
  a null `Cell?<T>`, and a null `FIDString` is `None`.
- `PluginInfos` (`plugin_infos.dfy`): the descriptor and the four host
  records (`PFactoryInfo`, `PClassInfo`, `PClassInfo2`, `PClassInfoW`) with
  their builders. The source defines them in `factory.rs`, which is not part
  of this model. Here each record keeps the descriptor's class ID and an
  opaque `Details` value.
- `Vst3` (`vst3.dfy`): the registry functions and the `Factory` class.
  - The pure functions are the uniqueness check, the first-match search
    `FindCid` and the class count.
  - The methods write through out pointers: the three class-info queries
    and `GetFactoryInfo`.
  - `CreateInstance` scans the registry with a mutable index, as the
    unrolled loop in the source does.

The macro's compile-time unrolling over plugin types becomes a runtime
sequence, and the plugin type at position `k` is identified by `k`. The
`+` repetition in the macro demands at least one plugin type, so `Registry`
is the type of non-empty descriptor sequences. A factory with zero classes
cannot arise from the macro, so the model has none either.

The two result codes use the values of the SDK's non-COM build (0 and 2).
No proof depends on the values, only on the two codes being different.

## Model

| member | source | states |
|---|---|---|
| `Abi.AsInt32` | src/wrapper/vst3.rs:87 | `len() as i32` agrees with the length modulo 2^32. It never exceeds the length. It is the length itself whenever the length fits in `i32`. |
| `Vst3.CidSet` | src/wrapper/vst3.rs:62 | The collected set holds the class ID of every descriptor and is no larger than the number of descriptors. |
| `Vst3.CidSetOnlyListed` | src/wrapper/vst3.rs:62 | Every element of the collected set is the class ID of some descriptor. |
| `Vst3.UniqueCidsIffDistinct` | src/wrapper/vst3.rs:62-67 | The set of class IDs has as many elements as there are descriptors if and only if the class IDs are pairwise distinct. |
| `Vst3.DebugCheckPasses` | src/wrapper/vst3.rs:61-68 | The debug assertion's size comparison holds exactly when no two descriptors share a class ID. |
| `Vst3.FindCid` | src/wrapper/vst3.rs:117-130 | The search returns the least position whose class ID equals the requested one. It returns nothing exactly when no descriptor has that class ID. |
| `Vst3.ListedClassIsCreatable` | src/wrapper/vst3.rs:117-128 | Each record lists the class ID of its descriptor. Searching for the class ID listed at index `k` matches at or before `k`, and exactly at `k` when the class IDs are distinct. |
| `Vst3.Factory.constructor` | src/wrapper/vst3.rs:70 | The factory stores the registry it is given. |
| `Vst3.Factory.New` | src/wrapper/vst3.rs:58-71 | `Factory::new` keeps the registry as given either way. It produces the duplicate-ID diagnostic if and only if debug assertions are on and two class IDs coincide. |
| `Vst3.Factory.CountClasses` | src/wrapper/vst3.rs:86-88 | The count never exceeds the number of descriptors. When that number fits in `i32`, the count equals it and is at least 1. |
| `Vst3.Factory.IndexInRange` | src/wrapper/vst3.rs:91 | Every index the bounds test admits is a valid position, even if the count overflowed its cast. Without overflow, the test admits exactly `0 <= index < length`. |
| `Vst3.Factory.GetFactoryInfo` | src/wrapper/vst3.rs:75-84 | A null output gives `kInvalidArgument`. Otherwise the first descriptor's factory record is written and the result is `kResultOk`. |
| `Vst3.Factory.GetClassInfo` | src/wrapper/vst3.rs:90-98 | `kResultOk` if and only if the index is in range. Out of range it returns `kInvalidArgument` and leaves `info` unchanged. In range it writes the record built from the descriptor at `index`. |
| `Vst3.Factory.GetClassInfo2` | src/wrapper/vst3.rs:135-143 | The same bounds contract, writing the extended class record. |
| `Vst3.Factory.GetClassInfoUnicode` | src/wrapper/vst3.rs:147-159 | The same bounds contract, writing the wide-string class record. |
| `Vst3.Factory.CreateInstance` | src/wrapper/vst3.rs:100-131 | A null `cid` or `obj` gives `kInvalidArgument` and builds nothing. Otherwise only the wrapper of the first matching descriptor is built. The result and the pointer stored in `obj` come from that wrapper's capability query. With no match it returns `kInvalidArgument`, builds nothing and leaves `obj` unchanged. |
| `Vst3.Factory.SetHostContext` | src/wrapper/vst3.rs:161-164 | Always returns `kResultOk` and changes nothing. |

The three class-info queries write through `info` without testing it for
null. Their precondition therefore demands a non-null `info` only when the
index is in range, which is when the source dereferences it.

## Left out

- COM plumbing (`ComWrapper::new`, `as_com_ref`, the vtable call, `to_com_ptr`, `into_raw`) and reference counting: these are calls into the `vst3` crate, which is not part of this model. The capability query of the built wrapper is the parameter `queryInterface`, a function of the matched position and `iid`. The ghost out-parameter `built` records which wrapper was constructed.
- Vst3.Factory.CreateInstance: also treats `queryInterface` as deterministic in (position, `iid`). The model does not distinguish one freshly built wrapper from another, or track the reference that is handed over.
- The contents and binary layout of `PFactoryInfo`, `PClassInfo`, `PClassInfo2` and `PClassInfoW`, and how `PluginInfo::for_plugin` and the `create_*_info` builders fill them: `factory.rs` is not part of this model. Each record keeps only the descriptor's class ID and its opaque details.
- `Wrapper::<P>::new()` and the plugin internals (processing, parameters, note expressions, units, editor): these live in modules that are not part of this model.
- The `GetPluginFactory` export and the platform entry and exit symbols with `setup_logger`: these are loader glue that always returns a pointer or `true`.
- Logging of the debug diagnostic: `Factory.New` returns the message instead of printing it.
- Thread safety and atomic reference counts: the registry is immutable and the model is sequential.
