/** The service's error type and the result that carries it. */
module Errors {
  import opened MachineWords

  /** The system's own number for a pipe whose other end is gone. */
  const ERROR_BROKEN_PIPE: u32 := 109

  /** The form in which the Windows bindings report a system error: a signed 32-bit HRESULT with the
      severity bit set, so never a positive number. */
  function HResult(win32: u32): (code: int)
    ensures code <= 0
  {
    if win32 == 0 then 0
    else if win32 >= 0x8000_0000 then win32 - U32_MODULUS
    else win32 % 0x1_0000 + 0x8007_0000 - U32_MODULUS
  }

  /** A broken pipe is reported as 0x8007006D, read as a signed number. */
  lemma BrokenPipeCode()
    ensures HResult(109) == 0x8007_006D - 0x1_0000_0000 == -2_147_024_787
    ensures ERROR_BROKEN_PIPE == 109
  {
  }

  datatype IoKind = UnexpectedEof | Os(code: int)

  const BrokenPipe: IoKind := Os(HResult(ERROR_BROKEN_PIPE))

  datatype Error =
    | Io(kind: IoKind)
    | Protocol(reason: string)
    | JobNotFound(jobId: u32)
    | JobExists(jobId: u32)
    | InvalidStateTransition
    | Service(reason: string)

  datatype Result<+T> = Ok(value: T) | Err(error: Error)

  datatype Option<+T> = None | Some(value: T)
}
