/**
 * The boundary between a WebAssembly guest and the formatting engine
 * (src/wasi_binding.cc), as a state machine over values.
 *
 * The process-wide state is the formatter handle (`g_formatter`), the result
 * slot (`g_last_result`), the heap blocks the module itself has obtained from
 * `malloc` for results, and the two function-local version caches.  Each
 * export is a function from the state before the call to the state after it
 * (and the integer or bytes it returns).  The engine is an abstract function
 * supplied by the caller of the model.
 */
module Protocol {
  import opened Wrappers
  import opened Status

  newtype byte = b: int | 0 <= b < 256

  /** Bytes with an explicit length: embedded zeros are ordinary content. */
  type Bytes = seq<byte>

  /** An address returned by `malloc`, kept abstract. */
  type BufferId = nat

  /** The configuration the engine handle holds; None is the engine's own default. */
  datatype Formatter = Formatter(style: Option<Bytes>, fallbackStyle: Option<Bytes>)

  /** A freshly constructed engine handle has neither style set. */
  const NewFormatter: Formatter := Formatter(None, None)

  /** What the engine returns for one run. */
  datatype EngineResult = EngineResult(status: ResultStatus, content: Bytes)

  /** The formatting engine: configuration, code, filename to outcome. */
  type Engine = (Formatter, Bytes, Bytes) -> EngineResult

  /** `g_last_result`: the status code, the content pointer and the content length. */
  datatype Slot = Slot(status: int, ptr: Option<BufferId>, len: int)

  /** The static initialiser `{0, nullptr, 0}`. */
  const EmptySlot: Slot := Slot(0, None, 0)

  /**
   * The blocks the module holds from `malloc`, the next address it will be
   * given, and whether a `free` was ever applied to an address that was not
   * live (a double or invalid free, undefined behaviour in the source).
   */
  datatype Heap = Heap(blocks: map<BufferId, Bytes>, next: nat, fault: bool)

  datatype State = State(
    formatter: Option<Formatter>,
    slot: Slot,
    heap: Heap,
    versionCache: Option<Bytes>,
    versionLenCache: Option<Bytes>)

  /** The state at process start: no handle, empty slot, nothing allocated, no cache. */
  const Initial: State := State(None, EmptySlot, Heap(map[], 0, false), None, None)

  /** The set of blocks a (nullable) pointer refers to. */
  function Owned(p: Option<BufferId>): set<BufferId>
  {
    if p.Some? then {p.value} else {}
  }

  /** `malloc` of a block that is then filled with `content` (the `memcpy`). */
  function Malloc(h: Heap, content: Bytes): (Heap, BufferId)
  {
    (h.(blocks := h.blocks[h.next := content], next := h.next + 1), h.next)
  }

  /** `free`; releasing an address that is not live is recorded as a fault. */
  function Free(h: Heap, id: BufferId): Heap
  {
    if id in h.blocks then h.(blocks := h.blocks - {id}) else h.(fault := true)
  }

  /**
   * What holds between calls: no fault so far; the pointer is null exactly
   * when the length is 0; the only live module block is the one the slot
   * points at, and it holds `len` bytes; addresses below `next` were handed
   * out already; and before the handle exists the slot is empty.
   */
  ghost predicate Inv(s: State)
  {
    && !s.heap.fault
    && (s.slot.ptr.None? <==> s.slot.len == 0)
    && s.heap.blocks.Keys == Owned(s.slot.ptr)
    && (s.slot.ptr.Some? ==> |s.heap.blocks[s.slot.ptr.value]| == s.slot.len)
    && (forall id :: id in s.heap.blocks ==> id < s.heap.next)
    && (s.formatter.None? ==> s.slot.ptr.None?)
  }

  // ---------------------------------------------------------------------
  // The exports
  // ---------------------------------------------------------------------

  /** `wasm_init`: creates the handle on the first call, otherwise does nothing. */
  function Init(s: State): (t: State)
    ensures t.formatter.Some?
    ensures s.formatter.None? ==> t.formatter == Some(NewFormatter)
    ensures s.formatter.Some? ==> t == s
    ensures t == s.(formatter := t.formatter)
  {
    if s.formatter.None? then s.(formatter := Some(NewFormatter)) else s
  }

  /** `wasm_set_style`: -1 without a handle, else stores exactly `style` and returns 0. */
  function SetStyle(s: State, style: Bytes): (r: (State, int))
    ensures s.formatter.None? ==> r == (s, -1)
    ensures s.formatter.Some? ==>
      && r.1 == 0
      && r.0.formatter == Some(Formatter(Some(style), s.formatter.value.fallbackStyle))
      && r.0 == s.(formatter := r.0.formatter)
  {
    if s.formatter.None? then (s, -1)
    else (s.(formatter := Some(s.formatter.value.(style := Some(style)))), 0)
  }

  /** `wasm_set_fallback_style`: as SetStyle, for the fallback style. */
  function SetFallbackStyle(s: State, style: Bytes): (r: (State, int))
    ensures s.formatter.None? ==> r == (s, -1)
    ensures s.formatter.Some? ==>
      && r.1 == 0
      && r.0.formatter == Some(Formatter(s.formatter.value.style, Some(style)))
      && r.0 == s.(formatter := r.0.formatter)
  {
    if s.formatter.None? then (s, -1)
    else (s.(formatter := Some(s.formatter.value.(fallbackStyle := Some(style)))), 0)
  }

  /**
   * `wasm_format`.  Without a handle the slot becomes {1, null, 0} and 1 is
   * returned, the heap untouched.  Otherwise the held block (if any) is freed,
   * the engine runs under the handle's configuration, its outcome is mapped to
   * a code, and non-empty output is copied into a new block of exactly its
   * size.  The returned code is the one stored.
   */
  function Format(s: State, engine: Engine, code: Bytes, filename: Bytes): (r: (State, int))
    ensures r.1 == r.0.slot.status
    ensures r.0.formatter == s.formatter
    ensures r.0.versionCache == s.versionCache && r.0.versionLenCache == s.versionLenCache
    ensures s.formatter.None? ==> r.0.slot == Slot(1, None, 0) && r.0.heap == s.heap
    ensures s.formatter.Some? ==>
      var out := engine(s.formatter.value, code, filename);
      && FromCode(r.1) == Some(out.status)
      && r.0.slot.len == |out.content|
      && (r.0.slot.ptr.Some? <==> |out.content| > 0)
      && (r.0.slot.ptr.Some? ==>
            r.0.slot.ptr.value in r.0.heap.blocks
            && r.0.heap.blocks[r.0.slot.ptr.value] == out.content)
  {
    if s.formatter.None? then
      (s.(slot := Slot(1, None, 0)), 1)
    else
      var h := if s.slot.ptr.Some? then Free(s.heap, s.slot.ptr.value) else s.heap;
      var out := engine(s.formatter.value, code, filename);
      var status := Code(out.status);
      if |out.content| > 0 then
        var (h', id) := Malloc(h, out.content);
        (s.(slot := Slot(status, Some(id), |out.content|), heap := h'), status)
      else
        (s.(slot := Slot(status, None, 0), heap := h), status)
  }

  /** `wasm_free_result`: frees the held block, if any, and empties pointer and length. */
  function FreeResult(s: State): (t: State)
    ensures t.slot.ptr.None? && t.slot.status == s.slot.status
    ensures s.slot.ptr.Some? ==> t.slot.len == 0 && s.slot.ptr.value !in t.heap.blocks
    ensures Inv(s) ==> Inv(t) && t.slot.len == 0 && t.heap.blocks == map[]
    ensures s.slot.ptr.None? ==> t == s
    ensures t == s.(slot := t.slot, heap := t.heap) && t.heap.next == s.heap.next
  {
    if s.slot.ptr.Some? then
      s.(heap := Free(s.heap, s.slot.ptr.value), slot := s.slot.(ptr := None, len := 0))
    else s
  }

  /**
   * `wasm_version`: the cached string if present, else `current` (what the
   * engine's version query gives now), which is cached.
   */
  function Version(s: State, current: Bytes): (r: (State, Bytes))
    ensures r.0.versionCache == Some(r.1)
    ensures s.versionCache.Some? ==> r == (s, s.versionCache.value)
    ensures s.versionCache.None? ==> r.1 == current
    ensures r.0 == s.(versionCache := r.0.versionCache)
  {
    if s.versionCache.Some? then (s, s.versionCache.value)
    else (s.(versionCache := Some(current)), current)
  }

  /** `wasm_version_len`: the size of its own, separately cached, version string. */
  function VersionLen(s: State, current: Bytes): (r: (State, int))
    ensures r.0.versionLenCache.Some? && r.1 == |r.0.versionLenCache.value|
    ensures s.versionLenCache.Some? ==> r == (s, |s.versionLenCache.value|)
    ensures s.versionLenCache.None? ==> r.1 == |current|
    ensures r.0 == s.(versionLenCache := r.0.versionLenCache)
  {
    if s.versionLenCache.Some? then (s, |s.versionLenCache.value|)
    else (s.(versionLenCache := Some(current)), |current|)
  }

  // ---------------------------------------------------------------------
  // Call sequences
  // ---------------------------------------------------------------------

  /** One call across the boundary, with its inputs. */
  datatype Call =
    | InitCall
    | SetStyleCall(style: Bytes)
    | SetFallbackStyleCall(style: Bytes)
    | FormatCall(engine: Engine, code: Bytes, filename: Bytes)
    | ResultPtrCall
    | ResultLenCall
    | FreeResultCall
    | VersionCall(current: Bytes)
    | VersionLenCall(current: Bytes)

  /** What a call returns to the guest. */
  datatype Reply = NoReply | IntReply(n: int) | PtrReply(p: Option<BufferId>) | BytesReply(b: Bytes)

  function Step(s: State, c: Call): (State, Reply)
  {
    match c
    case InitCall => (Init(s), NoReply)
    case SetStyleCall(style) => var (t, n) := SetStyle(s, style); (t, IntReply(n))
    case SetFallbackStyleCall(style) => var (t, n) := SetFallbackStyle(s, style); (t, IntReply(n))
    case FormatCall(engine, code, filename) =>
      var (t, n) := Format(s, engine, code, filename); (t, IntReply(n))
    case ResultPtrCall => (s, PtrReply(s.slot.ptr))
    case ResultLenCall => (s, IntReply(s.slot.len))
    case FreeResultCall => (FreeResult(s), NoReply)
    case VersionCall(current) => var (t, v) := Version(s, current); (t, BytesReply(v))
    case VersionLenCall(current) => var (t, n) := VersionLen(s, current); (t, IntReply(n))
  }

  /** The state after a sequence of calls, issued one at a time. */
  function Run(s: State, calls: seq<Call>): State
    decreases |calls|
  {
    if calls == [] then s else Run(Step(s, calls[0]).0, calls[1..])
  }

  // ---------------------------------------------------------------------
  // Properties
  // ---------------------------------------------------------------------

  lemma InitialInv()
    ensures Inv(Initial)
  {
  }

  /** Repeated initialisation is the same as one. */
  lemma InitIdempotent(s: State)
    ensures Init(Init(s)) == Init(s)
  {
  }

  /** Freeing the result twice is the same as freeing it once. */
  lemma FreeResultIdempotent(s: State)
    ensures FreeResult(FreeResult(s)) == FreeResult(s)
  {
  }

  /**
   * With a handle, the block held before `wasm_format` is released (it is
   * no longer live afterwards), without a fault, and the new block, if any,
   * is a different address.
   */
  lemma FormatReleasesPrevious(s: State, engine: Engine, code: Bytes, filename: Bytes)
    requires Inv(s) && s.formatter.Some? && s.slot.ptr.Some?
    ensures var t := Format(s, engine, code, filename).0;
      && s.slot.ptr.value !in t.heap.blocks
      && !t.heap.fault
      && t.slot.ptr != s.slot.ptr
  {
  }

  /**
   * The early return of `wasm_format` overwrites the pointer without freeing,
   * and this loses nothing: without a handle no block is live.
   */
  lemma EarlyReturnLeaksNothing(s: State, engine: Engine, code: Bytes, filename: Bytes)
    requires Inv(s) && s.formatter.None?
    ensures s.heap.blocks == map[]
    ensures Format(s, engine, code, filename).0.heap.blocks == map[]
  {
  }

  /** A style set after initialisation is the one the next format hands to the engine. */
  lemma FormatSeesStyle(s: State, style: Bytes, engine: Engine, code: Bytes, filename: Bytes)
    requires s.formatter.Some?
    ensures var t := SetStyle(s, style).0;
      FromCode(Format(t, engine, code, filename).1)
        == Some(engine(Formatter(Some(style), s.formatter.value.fallbackStyle), code, filename).status)
  {
  }

  /** Every call keeps the invariant. */
  lemma StepKeepsInv(s: State, c: Call)
    requires Inv(s)
    ensures Inv(Step(s, c).0)
  {
    match c
    case FormatCall(engine, code, filename) =>
      if s.formatter.Some? && s.slot.ptr.Some? {
        FormatReleasesPrevious(s, engine, code, filename);
      }
    case _ =>
  }

  lemma {:induction false} RunKeepsInv(s: State, calls: seq<Call>)
    requires Inv(s)
    ensures Inv(Run(s, calls))
    decreases |calls|
  {
    if calls != [] {
      StepKeepsInv(s, calls[0]);
      RunKeepsInv(Step(s, calls[0]).0, calls[1..]);
    }
  }

  /**
   * Across any sequence of calls from process start: no block is freed twice,
   * at most one module block is live, and it is the one the slot points at
   * (so nothing leaks); the pointer is null exactly when the length is 0.
   */
  lemma NoDoubleFreeNoLeak(calls: seq<Call>)
    ensures var t := Run(Initial, calls);
      && !t.heap.fault
      && t.heap.blocks.Keys == Owned(t.slot.ptr)
      && |t.heap.blocks| <= 1
      && (t.slot.ptr.None? <==> t.slot.len == 0)
  {
    InitialInv();
    RunKeepsInv(Initial, calls);
    var t := Run(Initial, calls);
    assert |t.heap.blocks.Keys| == |Owned(t.slot.ptr)|;
  }

  /** Once created, the handle never returns to null. */
  lemma {:induction false} FormatterPersists(s: State, calls: seq<Call>)
    requires s.formatter.Some?
    ensures Run(s, calls).formatter.Some?
    decreases |calls|
  {
    if calls != [] {
      FormatterPersists(Step(s, calls[0]).0, calls[1..]);
    }
  }

  /** Once filled, each version cache keeps its value for the rest of the process. */
  lemma {:induction false} VersionCachesPersist(s: State, calls: seq<Call>)
    ensures s.versionCache.Some? ==> Run(s, calls).versionCache == s.versionCache
    ensures s.versionLenCache.Some? ==> Run(s, calls).versionLenCache == s.versionLenCache
    decreases |calls|
  {
    if calls != [] {
      VersionCachesPersist(Step(s, calls[0]).0, calls[1..]);
    }
  }

  /** Each cache is empty or holds `v`. */
  ghost predicate CachesHold(s: State, v: Bytes)
  {
    (s.versionCache.None? || s.versionCache.value == v)
    && (s.versionLenCache.None? || s.versionLenCache.value == v)
  }

  /** Every version query in `calls` sees the engine report `v`. */
  ghost predicate EngineVersionIs(calls: seq<Call>, v: Bytes)
  {
    forall i :: 0 <= i < |calls| && (calls[i].VersionCall? || calls[i].VersionLenCall?) ==>
      calls[i].current == v
  }

  /**
   * If the engine always reports the version `v`, the two independent caches
   * agree with `v` after any sequence of calls, so `wasm_version` returns `v`
   * and `wasm_version_len` returns its size.
   */
  lemma {:induction false} VersionAndLengthAgree(s: State, calls: seq<Call>, v: Bytes)
    requires CachesHold(s, v) && EngineVersionIs(calls, v)
    ensures var t := Run(s, calls);
      && CachesHold(t, v)
      && Step(t, VersionCall(v)).1 == BytesReply(v)
      && Step(t, VersionLenCall(v)).1 == IntReply(|v|)
    decreases |calls|
  {
    if calls != [] {
      assert EngineVersionIs(calls[1..], v) by {
        forall i | 0 <= i < |calls[1..]| && (calls[1..][i].VersionCall? || calls[1..][i].VersionLenCall?)
          ensures calls[1..][i].current == v
        {
          assert calls[1..][i] == calls[i + 1];
        }
      }
      assert calls[0].VersionCall? || calls[0].VersionLenCall? ==> calls[0].current == v;
      VersionAndLengthAgree(Step(s, calls[0]).0, calls[1..], v);
    }
  }
}
