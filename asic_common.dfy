/** Types shared by every layer of the ASIC driver: the 16-bit register word,
    the register identifier and the two-valued result code `asicState`. */
module AsicCommon {

  /** One 16-bit register value (`uint16_t`). */
  type Word = bv16

  /** A register identifier (`asicReg`). Every value that reaches the transport
      is either a named register or a `uint16_t` computed by the PWM layer. */
  type RegId = bv16

  /** `asicState`: `kAsiceERR = -1`, `kAsiceSuccess = 0`. */
  datatype State = Err | Success

  datatype Option<T> = None | Some(value: T)

  /** The C value of a result code. */
  function Code(s: State): (c: int)
    ensures c == 0 || c == -1
    ensures c == 0 <==> s.Success?
  {
    if s.Success? then 0 else -1
  }

  /** The source tests `kAsiceSuccess > state` and `kAsiceSuccess != state`
      interchangeably: with only two codes both mean "failed". */
  lemma FailureTestsAgree(s: State)
    ensures (0 > Code(s)) == (0 != Code(s)) == s.Err?
  {
  }
}
