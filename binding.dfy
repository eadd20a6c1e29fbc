/**
 * The exports of src/wasi_binding.cc as methods over the process-wide
 * globals, which are the fields of one `Binding` object.  Every method keeps
 * the invariant `Protocol.Inv` and leaves exactly the state that the
 * corresponding `Protocol` function describes; the properties of those
 * functions are proved in module Protocol.
 */
module WasiBinding {
  import opened Wrappers
  import opened Status
  import opened Protocol

  class Binding {
    /** `g_formatter`; None is the null pointer. */
    var formatter: Option<Formatter>
    /** `g_last_result.status`. */
    var status: int
    /** `g_last_result.content_ptr`; None is the null pointer. */
    var contentPtr: Option<BufferId>
    /** `g_last_result.content_len`. */
    var contentLen: int
    /** The live blocks this module obtained from `malloc`, with their bytes. */
    var blocks: map<BufferId, Bytes>
    /** The address the next `malloc` returns. */
    var nextId: nat
    /** The function-local `static` string of `wasm_version`. */
    var versionCache: Option<Bytes>
    /** The function-local `static` string of `wasm_version_len`. */
    var versionLenCache: Option<Bytes>

    /** The globals as a Protocol state (no free has ever faulted). */
    function Abstract(): State
      reads this
    {
      State(formatter, Slot(status, contentPtr, contentLen), Heap(blocks, nextId, false),
            versionCache, versionLenCache)
    }

    ghost predicate Valid()
      reads this
    {
      Inv(Abstract())
    }

    /** The static initialisers, at process start. */
    constructor ()
      ensures Valid() && Abstract() == Initial
    {
      formatter := None;
      status, contentPtr, contentLen := 0, None, 0;
      blocks, nextId := map[], 0;
      versionCache, versionLenCache := None, None;
    }

    /** `malloc(|content|)` followed by `memcpy` of `content` into the new block. */
    method Allocate(content: Bytes) returns (id: BufferId)
      requires forall k :: k in blocks ==> k < nextId
      modifies this`blocks, this`nextId
      ensures id !in old(blocks) && id == old(nextId)
      ensures blocks == old(blocks)[id := content] && nextId == old(nextId) + 1
      ensures forall k :: k in blocks ==> k < nextId
    {
      id := nextId;
      blocks := blocks[id := content];
      nextId := nextId + 1;
    }

    /** `free` of a block this module holds; only a live block may be released. */
    method Release(id: BufferId)
      requires id in blocks
      modifies this`blocks
      ensures blocks == old(blocks) - {id}
    {
      blocks := blocks - {id};
    }

    /** `wasm_init`. */
    method Init()
      requires Valid()
      modifies this`formatter
      ensures Valid() && Abstract() == Protocol.Init(old(Abstract()))
      ensures old(formatter).Some? ==> formatter == old(formatter)
    {
      if formatter.None? {
        formatter := Some(NewFormatter);
      }
    }

    /** `wasm_set_style`. */
    method SetStyle(style: Bytes) returns (r: int)
      requires Valid()
      modifies this`formatter
      ensures Valid() && (Abstract(), r) == Protocol.SetStyle(old(Abstract()), style)
    {
      if formatter.None? {
        return -1;
      }
      formatter := Some(formatter.value.(style := Some(style)));
      return 0;
    }

    /** `wasm_set_fallback_style`. */
    method SetFallbackStyle(style: Bytes) returns (r: int)
      requires Valid()
      modifies this`formatter
      ensures Valid() && (Abstract(), r) == Protocol.SetFallbackStyle(old(Abstract()), style)
    {
      if formatter.None? {
        return -1;
      }
      formatter := Some(formatter.value.(fallbackStyle := Some(style)));
      return 0;
    }

    /** `wasm_format`. */
    method Format(engine: Engine, code: Bytes, filename: Bytes) returns (r: int)
      requires Valid()
      modifies this
      ensures Valid() && (Abstract(), r) == Protocol.Format(old(Abstract()), engine, code, filename)
    {
      if formatter.None? {
        status := 1;
        contentPtr := None;
        contentLen := 0;
        return 1;
      }

      if contentPtr.Some? {
        Release(contentPtr.value);
        contentPtr := None;
      }

      var result := engine(formatter.value, code, filename);
      status := Code(result.status);

      if |result.content| > 0 {
        contentLen := |result.content|;
        var id := Allocate(result.content);
        contentPtr := Some(id);
      } else {
        contentPtr := None;
        contentLen := 0;
      }
      return status;
    }

    /** `wasm_get_result_ptr`. */
    method ResultPtr() returns (p: Option<BufferId>)
      requires Valid()
      ensures p == contentPtr
      ensures p.Some? ==> p.value in blocks && |blocks[p.value]| == contentLen
    {
      p := contentPtr;
    }

    /** `wasm_get_result_len`. */
    method ResultLen() returns (n: int)
      requires Valid()
      ensures n == contentLen
      ensures n == 0 <==> contentPtr.None?
    {
      n := contentLen;
    }

    /** `wasm_free_result`. */
    method FreeResult()
      requires Valid()
      modifies this`blocks, this`contentPtr, this`contentLen
      ensures Valid() && Abstract() == Protocol.FreeResult(old(Abstract()))
      ensures contentPtr.None? && contentLen == 0 && blocks == map[]
    {
      if contentPtr.Some? {
        Release(contentPtr.value);
        contentPtr := None;
        contentLen := 0;
      }
    }

    /** `wasm_version`; `current` is what the engine's version query returns now. */
    method Version(current: Bytes) returns (v: Bytes)
      requires Valid()
      modifies this`versionCache
      ensures Valid() && (Abstract(), v) == Protocol.Version(old(Abstract()), current)
    {
      if versionCache.None? {
        versionCache := Some(current);
      }
      v := versionCache.value;
    }

    /** `wasm_version_len`, with its own cache. */
    method VersionLen(current: Bytes) returns (n: int)
      requires Valid()
      modifies this`versionLenCache
      ensures Valid() && (Abstract(), n) == Protocol.VersionLen(old(Abstract()), current)
    {
      if versionLenCache.None? {
        versionLenCache := Some(current);
      }
      n := |versionLenCache.value|;
    }
  }
}
