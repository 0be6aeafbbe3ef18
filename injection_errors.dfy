/** The InjectionError enum of DLLInjector.h and the static
    DLLInjector::GetErrorMessage of DLLInjector.cpp. */
module InjectionErrors {
  import opened Wrappers

  datatype InjectionError =
    | Success
    | ProcessNotFound
    | ProcessOpenFailed
    | MemoryAllocationFailed
    | MemoryWriteFailed
    | Kernel32HandleFailed
    | LoadLibraryAddrFailed
    | RemoteThreadFailed
    | DllNotFound
    | PlatformNotSupported
    | UnknownError

  /** The value each variant is declared with. */
  function Code(e: InjectionError): nat {
    match e
    case Success => 0
    case ProcessNotFound => 1
    case ProcessOpenFailed => 2
    case MemoryAllocationFailed => 3
    case MemoryWriteFailed => 4
    case Kernel32HandleFailed => 5
    case LoadLibraryAddrFailed => 6
    case RemoteThreadFailed => 7
    case DllNotFound => 8
    case PlatformNotSupported => 9
    case UnknownError => 10
  }

  /** The variant declared with value `code`, if any. */
  function FromCode(code: int): (r: Option<InjectionError>)
    ensures r.Some? <==> 0 <= code <= 10
  {
    if code == 0 then Some(Success)
    else if code == 1 then Some(ProcessNotFound)
    else if code == 2 then Some(ProcessOpenFailed)
    else if code == 3 then Some(MemoryAllocationFailed)
    else if code == 4 then Some(MemoryWriteFailed)
    else if code == 5 then Some(Kernel32HandleFailed)
    else if code == 6 then Some(LoadLibraryAddrFailed)
    else if code == 7 then Some(RemoteThreadFailed)
    else if code == 8 then Some(DllNotFound)
    else if code == 9 then Some(PlatformNotSupported)
    else if code == 10 then Some(UnknownError)
    else None
  }

  /** The eleven variants carry the eleven codes 0 to 10, each exactly once:
      decoding a variant's code gives the variant back, and decoding a code
      gives a variant that carries it. */
  lemma CodesRoundTrip(e: InjectionError, code: int)
    ensures FromCode(Code(e)) == Some(e)
    ensures FromCode(code).Some? ==> Code(FromCode(code).value) == code
  {
  }

  lemma CodesDistinct(a: InjectionError, b: InjectionError)
    requires a != b
    ensures Code(a) != Code(b)
  {
    CodesRoundTrip(a, 0);
    CodesRoundTrip(b, 0);
  }

  /** GetErrorMessage on a declared variant. */
  function ErrorMessage(e: InjectionError): string {
    match e
    case Success => "Success"
    case ProcessNotFound => "Process not found"
    case ProcessOpenFailed => "Failed to open process"
    case MemoryAllocationFailed => "Failed to allocate memory in the process"
    case MemoryWriteFailed => "Failed to write to process memory"
    case Kernel32HandleFailed => "Failed to get kernel32.dll handle"
    case LoadLibraryAddrFailed => "Failed to get LoadLibraryA address"
    case RemoteThreadFailed => "Failed to create remote thread"
    case DllNotFound => "DLL file not found"
    case PlatformNotSupported => "Platform not supported (Windows required)"
    case UnknownError => "Unknown error"
  }

  /** GetErrorMessage on any value the enum can hold: the switch's default
      branch shares UNKNOWN_ERROR's text. */
  function ErrorMessageOfCode(code: int): (message: string)
    ensures message == "Unknown error" <==> !(0 <= code <= 9)
    ensures 0 <= code <= 10 ==> message == ErrorMessage(FromCode(code).value)
  {
    match FromCode(code)
    case Some(e) => ErrorMessage(e)
    case None => "Unknown error"
  }

  /** Each variant has its own text: the message identifies the variant. */
  lemma ErrorMessageInjective(a: InjectionError, b: InjectionError)
    requires ErrorMessage(a) == ErrorMessage(b)
    ensures a == b
  {
  }
}
