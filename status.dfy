/**
 * The engine's three-valued outcome and the integer codes the boundary
 * reports for it (src/wasi_binding.cc:20, 69, 91-101).
 */
module Status {
  import opened Wrappers

  /** Outcome of one formatting run, as the engine reports it. */
  datatype ResultStatus = Success | Error | Unchanged

  /** The `switch` in `wasm_format`: Success is 0, Error is 1, Unchanged is 2. */
  function Code(s: ResultStatus): (c: int)
    ensures 0 <= c <= 2
    ensures FromCode(c) == Some(s)
  {
    match s
    case Success => 0
    case Error => 1
    case Unchanged => 2
  }

  /** Reading a status code back; codes outside 0..2 denote no outcome. */
  function FromCode(c: int): (r: Option<ResultStatus>)
    ensures r.Some? <==> 0 <= c <= 2
  {
    if c == 0 then Some(Success)
    else if c == 1 then Some(Error)
    else if c == 2 then Some(Unchanged)
    else None
  }

  /** Distinct outcomes get distinct codes, and every code in 0..2 is used. */
  lemma CodeIsBijective(a: ResultStatus, b: ResultStatus, c: int)
    ensures Code(a) == Code(b) <==> a == b
    ensures 0 <= c <= 2 ==> Code(FromCode(c).value) == c
  {
    assert FromCode(Code(a)) == Some(a) && FromCode(Code(b)) == Some(b);
  }
}
