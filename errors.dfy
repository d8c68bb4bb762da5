/**
 * The error layer of the safe wrapper: the `Error` enumeration, its
 * conversion from the native status code, and its `Display` text.
 */
module Errors {
  import opened Wrappers
  import opened Numeric
  import opened Decimal

  /** The native engine's `pv_status_t` codes, in declaration order. */
  const STATUS_SUCCESS: u32 := 0
  const STATUS_OUT_OF_MEMORY: u32 := 1
  const STATUS_IO_ERROR: u32 := 2
  const STATUS_INVALID_ARGUMENT: u32 := 3
  const STATUS_STOP_ITERATION: u32 := 4
  const STATUS_KEY_ERROR: u32 := 5
  const STATUS_INVALID_STATE: u32 := 6
  const STATUS_RUNTIME_ERROR: u32 := 7
  const STATUS_ACTIVATION_ERROR: u32 := 8
  const STATUS_ACTIVATION_LIMIT_REACHED: u32 := 9
  const STATUS_ACTIVATION_THROTTLED: u32 := 10
  const STATUS_ACTIVATION_REFUSED: u32 := 11

  /** The wrapper's error type; `UnknownError` carries the raw status code. */
  datatype Error =
    | NullValue
    | OutOfMemory
    | IoError
    | InvalidArgument
    | StopIteration
    | KeyError
    | InvalidState
    | RuntimeError
    | ActivationError
    | ActivationLimitReached
    | ActivationThrottled
    | ActivationRefused
    | UnknownError(code: u32)
  {
    /** The licensing failures, which operators must be able to tell apart. */
    predicate IsActivation() {
      ActivationError? || ActivationLimitReached? || ActivationThrottled? || ActivationRefused?
    }
  }

  /**
   * `From<pv_status_t> for Error`: the eleven named failure codes map to their
   * variants, every other code (SUCCESS included) to `UnknownError` of itself.
   */
  function FromStatus(status: u32): (e: Error)
    ensures e != NullValue
    ensures e.UnknownError? <==> !(STATUS_OUT_OF_MEMORY <= status <= STATUS_ACTIVATION_REFUSED)
    ensures e.UnknownError? ==> e.code == status
    ensures e.IsActivation() <==> STATUS_ACTIVATION_ERROR <= status <= STATUS_ACTIVATION_REFUSED
  {
    if status == STATUS_OUT_OF_MEMORY then OutOfMemory
    else if status == STATUS_IO_ERROR then IoError
    else if status == STATUS_INVALID_ARGUMENT then InvalidArgument
    else if status == STATUS_STOP_ITERATION then StopIteration
    else if status == STATUS_KEY_ERROR then KeyError
    else if status == STATUS_INVALID_STATE then InvalidState
    else if status == STATUS_RUNTIME_ERROR then RuntimeError
    else if status == STATUS_ACTIVATION_ERROR then ActivationError
    else if status == STATUS_ACTIVATION_LIMIT_REACHED then ActivationLimitReached
    else if status == STATUS_ACTIVATION_THROTTLED then ActivationThrottled
    else if status == STATUS_ACTIVATION_REFUSED then ActivationRefused
    else UnknownError(status)
  }

  /**
   * The status code a variant stands for. `NullValue` is raised by the wrapper
   * itself and stands for no native code.
   */
  function StatusCode(e: Error): Option<u32> {
    match e
    case NullValue => None
    case OutOfMemory => Some(STATUS_OUT_OF_MEMORY)
    case IoError => Some(STATUS_IO_ERROR)
    case InvalidArgument => Some(STATUS_INVALID_ARGUMENT)
    case StopIteration => Some(STATUS_STOP_ITERATION)
    case KeyError => Some(STATUS_KEY_ERROR)
    case InvalidState => Some(STATUS_INVALID_STATE)
    case RuntimeError => Some(STATUS_RUNTIME_ERROR)
    case ActivationError => Some(STATUS_ACTIVATION_ERROR)
    case ActivationLimitReached => Some(STATUS_ACTIVATION_LIMIT_REACHED)
    case ActivationThrottled => Some(STATUS_ACTIVATION_THROTTLED)
    case ActivationRefused => Some(STATUS_ACTIVATION_REFUSED)
    case UnknownError(c) => Some(c)
  }

  /** The match table of the conversion, one named code per variant. */
  lemma FromStatusTable()
    ensures FromStatus(STATUS_OUT_OF_MEMORY) == OutOfMemory
    ensures FromStatus(STATUS_IO_ERROR) == IoError
    ensures FromStatus(STATUS_INVALID_ARGUMENT) == InvalidArgument
    ensures FromStatus(STATUS_STOP_ITERATION) == StopIteration
    ensures FromStatus(STATUS_KEY_ERROR) == KeyError
    ensures FromStatus(STATUS_INVALID_STATE) == InvalidState
    ensures FromStatus(STATUS_RUNTIME_ERROR) == RuntimeError
    ensures FromStatus(STATUS_ACTIVATION_ERROR) == ActivationError
    ensures FromStatus(STATUS_ACTIVATION_LIMIT_REACHED) == ActivationLimitReached
    ensures FromStatus(STATUS_ACTIVATION_THROTTLED) == ActivationThrottled
    ensures FromStatus(STATUS_ACTIVATION_REFUSED) == ActivationRefused
  {
  }

  /** The conversion loses nothing: the code can always be recovered. */
  lemma StatusCodeOfFromStatus(status: u32)
    ensures StatusCode(FromStatus(status)) == Some(status)
  {
  }

  /** Hence distinct codes give distinct errors. */
  lemma FromStatusInjective(a: u32, b: u32)
    ensures FromStatus(a) == FromStatus(b) ==> a == b
  {
    StatusCodeOfFromStatus(a);
    StatusCodeOfFromStatus(b);
  }

  /**
   * The errors the conversion can produce are exactly those other than
   * `NullValue` and an `UnknownError` holding a named code; each comes from
   * the code `StatusCode` gives.
   */
  lemma FromStatusOfStatusCode(e: Error)
    ensures (StatusCode(e).Some? && FromStatus(StatusCode(e).value) == e)
        <==> (e != NullValue && !(e.UnknownError? && STATUS_OUT_OF_MEMORY <= e.code <= STATUS_ACTIVATION_REFUSED))
  {
  }

  const UNKNOWN_PREFIX: string := "non-zero status returned: "

  /** `Display for Error`: one message per variant. */
  function Message(e: Error): (m: string)
    ensures |m| > 0
    ensures e.UnknownError? <==> UNKNOWN_PREFIX <= m
  {
    match e
    case NullValue => "unexpected null value"
    case OutOfMemory => "out of memory"
    case IoError => "I/O error"
    case InvalidArgument => "invalid argument"
    case StopIteration => "stop iteration"
    case KeyError => "key error"
    case InvalidState => "invalid state"
    case RuntimeError => "runtime error"
    case ActivationError => "activation error"
    case ActivationLimitReached => "activation limit reached"
    case ActivationThrottled => "activation throttled"
    case ActivationRefused => "activation refused"
    case UnknownError(c) => UNKNOWN_PREFIX + NatToString(c as nat)
  }

  /** Reads an error back from its message; the inverse of `Message`. */
  function ParseMessage(m: string): Option<Error> {
    if UNKNOWN_PREFIX <= m then
      var digits := m[|UNKNOWN_PREFIX|..];
      if IsDigits(digits) && StringToNat(digits) < 0x1_0000_0000
      then Some(UnknownError(StringToNat(digits) as u32))
      else None
    else if m == "unexpected null value" then Some(NullValue)
    else if m == "out of memory" then Some(OutOfMemory)
    else if m == "I/O error" then Some(IoError)
    else if m == "invalid argument" then Some(InvalidArgument)
    else if m == "stop iteration" then Some(StopIteration)
    else if m == "key error" then Some(KeyError)
    else if m == "invalid state" then Some(InvalidState)
    else if m == "runtime error" then Some(RuntimeError)
    else if m == "activation error" then Some(ActivationError)
    else if m == "activation limit reached" then Some(ActivationLimitReached)
    else if m == "activation throttled" then Some(ActivationThrottled)
    else if m == "activation refused" then Some(ActivationRefused)
    else None
  }

  lemma ParseNamedMessage(e: Error)
    requires !e.UnknownError?
    ensures ParseMessage(Message(e)) == Some(e)
  {
    // Each fixed message is shorter than the unknown-status prefix.
    assert |Message(e)| < |UNKNOWN_PREFIX|;
  }

  lemma {:induction false} ParseUnknownMessage(c: u32)
    ensures ParseMessage(Message(UnknownError(c))) == Some(UnknownError(c))
  {
    var digits := NatToString(c as nat);
    var m := UNKNOWN_PREFIX + digits;
    assert UNKNOWN_PREFIX <= m && m[|UNKNOWN_PREFIX|..] == digits;
    StringToNatOfNatToString(c as nat);
  }

  /** Every message names its error, and the code of an unknown status is printed in it. */
  lemma ParseMessageOfMessage(e: Error)
    ensures ParseMessage(Message(e)) == Some(e)
  {
    if e.UnknownError? {
      ParseUnknownMessage(e.code);
    } else {
      ParseNamedMessage(e);
    }
  }

  /** Distinct errors display differently. */
  lemma MessageInjective(a: Error, b: Error)
    ensures Message(a) == Message(b) ==> a == b
  {
    ParseMessageOfMessage(a);
    ParseMessageOfMessage(b);
  }

  /** The activation errors are exactly those whose message begins "activation". */
  lemma ActivationMessages(e: Error)
    ensures e.IsActivation() <==> "activation" <= Message(e)
  {
    var m := Message(e);
    if e.UnknownError? {
      assert m[0] == UNKNOWN_PREFIX[0] == 'n';
    } else if e.IsActivation() {
      assert m[..10] == "activation";
    } else {
      assert |m| < 10 || m[0] != 'a';
    }
  }
}
