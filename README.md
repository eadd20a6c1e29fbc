# The WebAssembly boundary of a clang-format build, modelled in Dafny

`src/wasi_binding.cc` exposes a formatting engine to a WebAssembly guest
through plain C exports, with no glue layer in between. The guest hands over
byte ranges as (pointer, length) pairs and drives a small piece of
process-wide state:

- the formatter handle `g_formatter`, which is null until `wasm_init` creates it;
- the result slot `g_last_result` (status, content pointer, content length),
  which owns at most one `malloc`ed block holding the last output;
- two function-local `static` copies of the engine's version string.

The model has four modules:

- `Status` (`status.dfy`) holds the engine's three-valued outcome and its
  integer codes 0, 1 and 2, with their inverse.
- `Protocol` (`protocol.dfy`) is the state machine over values. There is one
  function per export and a `Step`/`Run` semantics over any sequence of calls.
  The invariant `Inv` and the lemmas about ownership live here too.
- `WasiBinding` (`binding.dfy`) is the imperative form. The globals are the
  fields of a `Binding` object, and each export is a method that updates them
  step by step. Each method keeps `Valid()` (that is, `Protocol.Inv`) and
  leaves exactly the state the matching `Protocol` function gives.
  `Binding.Release`, the stand-in for `free`, requires that its block is
  live. So every `free` in `Format` and `FreeResult` is proved not to be a
  double free.
- `Wrappers` (`wrappers.dfy`) holds `Option`, which stands for the nullable
  pointers.

Modelling choices:

- The formatting engine (`ClangFormat`) is not part of this model. It becomes
  an `Engine` parameter, a function from the handle's configuration, the code
  and the filename to an outcome and output bytes.
- The handle is treated as holding exactly the style strings passed to
  `with_style` and `with_fallback_style`. `None` stands for the engine's own
  default.
- `ClangFormat::version()` becomes a `current` parameter of the two version
  queries.
- Byte ranges are `seq<byte>`. Their length is the length argument, and
  embedded zero bytes are ordinary content.
- Module-owned heap blocks are abstract addresses in a map. A `free` of an
  address that is not live is recorded as a fault.

Two behaviours of the code are worth stating:

- The early return of `wasm_format` (lines 73-78) does reset the slot's
  pointer to null without freeing it. `EarlyReturnLeaksNothing` shows this
  loses nothing, because before `wasm_init` no block can be live.
- A status of Error does not force empty content. The code stores whatever
  bytes the engine returns, whatever the status.

## Model

| member | source | states |
|---|---|---|
| Status.Code | src/wasi_binding.cc:91-101 | Success, Error and Unchanged map to a code in 0..2 that reads back as the same outcome |
| Status.CodeIsBijective | src/wasi_binding.cc:91-101 | distinct outcomes get distinct codes, and every code 0..2 belongs to one outcome |
| Protocol.Init | src/wasi_binding.cc:44-48 | afterwards the handle exists; a newly created one has no style set; an existing handle (and its styles) is left untouched; nothing but the handle ever changes |
| Protocol.InitIdempotent | src/wasi_binding.cc:44-48 | two initialisations leave the same state as one |
| Protocol.FormatterPersists | src/wasi_binding.cc:44-48 | once created, the handle stays non-null across any later sequence of calls |
| Protocol.SetStyle | src/wasi_binding.cc:52-57 | without a handle: returns -1 and changes nothing; otherwise stores exactly the given bytes as style, keeps the fallback style and everything else, returns 0 |
| Protocol.SetFallbackStyle | src/wasi_binding.cc:61-66 | the same for the fallback style |
| Protocol.Format | src/wasi_binding.cc:71-113 | returns the status it stores; without a handle the slot becomes {1, null, 0} and the heap is untouched; otherwise the code reads back as the engine's outcome, the length is the output size, the pointer is non-null exactly for non-empty output and points at a block holding exactly the output bytes |
| Protocol.FormatSeesStyle | src/wasi_binding.cc:52-57 | after setting a style, the next format hands that style (and the unchanged fallback) to the engine |
| Protocol.FormatReleasesPrevious | src/wasi_binding.cc:80-84 | with a handle, the block held before the call is no longer live afterwards, no fault occurred, and (with this model's allocator, which never reuses an address) the new pointer differs from the old one |
| Protocol.EarlyReturnLeaksNothing | src/wasi_binding.cc:73-78 | under the invariant and without a handle no block is live, so overwriting the pointer leaks nothing |
| Protocol.FreeResult | src/wasi_binding.cc:129-135 | afterwards the pointer is null and the status is unchanged; when a block was held it is freed and the length becomes 0; under the invariant no block is live afterwards; with a null pointer nothing changes; the handle, the caches and the allocator's next address are never touched |
| Protocol.FreeResultIdempotent | src/wasi_binding.cc:129-135 | freeing the result twice leaves the same state as once |
| Protocol.Version | src/wasi_binding.cc:139-142 | returns the cached string when there is one, otherwise the engine's current version, which becomes the cache |
| Protocol.VersionLen | src/wasi_binding.cc:146-149 | returns the size of its own cached string, which it fills from the engine's current version on first call |
| Protocol.VersionCachesPersist | src/wasi_binding.cc:139-149 | once filled, each cache keeps its value across any later sequence of calls |
| Protocol.VersionAndLengthAgree | src/wasi_binding.cc:139-149 | if the engine always reports v, after any sequence of calls the version query returns v and the length query returns the size of v |
| Protocol.InitialInv | src/wasi_binding.cc:16-25 | the static initial state (null handle, slot {0, null, 0}) satisfies the ownership invariant |
| Protocol.StepKeepsInv | src/wasi_binding.cc:44-149 | every export preserves the ownership invariant |
| Protocol.RunKeepsInv | src/wasi_binding.cc:44-149 | any sequence of exports preserves the ownership invariant |
| Protocol.NoDoubleFreeNoLeak | src/wasi_binding.cc:80-110 | from process start, across any sequence of calls: no free of a non-live block, at most one module block is live and it is the slot's, pointer null iff length 0 |
| WasiBinding.Binding.constructor | src/wasi_binding.cc:16-25 | the globals start as the initial protocol state |
| WasiBinding.Binding.Allocate | src/wasi_binding.cc:105-106 | a new block, distinct from every live one, holding exactly the given bytes |
| WasiBinding.Binding.Release | src/wasi_binding.cc:82 | only a live block can be freed, and it is then no longer live |
| WasiBinding.Binding.Init | src/wasi_binding.cc:44-48 | keeps the invariant, matches Protocol.Init, keeps an existing handle |
| WasiBinding.Binding.SetStyle | src/wasi_binding.cc:52-57 | keeps the invariant and matches Protocol.SetStyle |
| WasiBinding.Binding.SetFallbackStyle | src/wasi_binding.cc:61-66 | keeps the invariant and matches Protocol.SetFallbackStyle |
| WasiBinding.Binding.Format | src/wasi_binding.cc:71-113 | keeps the invariant and matches Protocol.Format; its free of the previous block is proved to target a live block |
| WasiBinding.Binding.ResultPtr | src/wasi_binding.cc:117-119 | returns the slot's pointer, which when non-null is a live block of exactly the slot's length |
| WasiBinding.Binding.ResultLen | src/wasi_binding.cc:123-125 | returns the slot's length, which is 0 exactly when the pointer is null |
| WasiBinding.Binding.FreeResult | src/wasi_binding.cc:129-135 | keeps the invariant, matches Protocol.FreeResult; afterwards pointer null, length 0, no live block |
| WasiBinding.Binding.Version | src/wasi_binding.cc:139-142 | keeps the invariant and matches Protocol.Version |
| WasiBinding.Binding.VersionLen | src/wasi_binding.cc:146-149 | keeps the invariant and matches Protocol.VersionLen |

## Left out

- `wasm_alloc` and `wasm_dealloc` (lines 32-40) are bare `malloc`/`free` passthroughs for guest-owned input buffers. They are not modelled. The heap here holds only module-owned result blocks, and a guest that passes a result pointer to `wasm_dealloc` is outside the model.
- The `ClangFormat` engine (formatting, style parsing, `version()`) is foreign code that is not part of this model. It is a parameter, and `with_style`/`with_fallback_style` are taken to store the string they are given.
- `malloc` is assumed to succeed. A null return at line 105 followed by `memcpy` is not modelled.
- Protocol.FormatReleasesPrevious: the model's `malloc` never reuses an address, so the new pointer always differs from the freed one; the real `malloc` at line 105 may return the address just freed at line 82, so a guest can see the same pointer twice.
- Exceptions thrown by the engine or by `std::string` are not modelled.
- The `int32_t` truncation of `content.size()` at line 104 is not modelled. The length is an unbounded integer.
- Pointers are not modelled. Version queries return the cached string's bytes, not the identity of its `c_str()` pointer, and buffer addresses are abstract numbers with no linear-memory layout.
- The export macros (lines 8-13) and the `extern "C"` plumbing are not modelled.
