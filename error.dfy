/** The crate's error type (spawner/error.rs): an error is one of three kinds,
    each wrapping the value it was converted from, and it displays as that
    value does. */
module Errors {
  import Wrappers

  /** A system error (`crate::sys::error::SysError`, which is not part of this
      model); only the text it displays is kept. */
  datatype SysError = SysError(text: string)

  /** `std::io::Error`, reduced to the text it displays. */
  datatype IoError = IoError(text: string)

  datatype ErrorKind = Sys(sys: SysError) | Other(message: string) | Io(io: IoError)

  datatype Error = Error(kind: ErrorKind)

  /** `crate::Result<T>`. */
  type Result<T> = Wrappers.Result<T, Error>

  /** `Error::new`: wraps a kind unchanged. */
  function New(k: ErrorKind): (e: Error)
    ensures e.kind == k
  {
    Error(k)
  }

  /** `Error::last_os_error`; the thread's last OS error is a parameter. */
  function LastOsError(last: SysError): (e: Error)
    ensures e.kind.Sys? && e.kind.sys == last
    ensures Display(e) == last.text
  {
    FromSys(last)
  }

  /** The `Display` impl: forwards to the wrapped value. */
  function Display(e: Error): string
  {
    match e.kind
    case Io(err) => err.text
    case Sys(err) => err.text
    case Other(s) => s
  }

  /** The `Debug` impl: `writeln!` of the `Display` text. */
  function Debug(e: Error): (r: string)
    ensures |r| == |Display(e)| + 1
    ensures r[..|r| - 1] == Display(e) && r[|r| - 1] == '\n'
  {
    Display(e) + "\n"
  }

  /** `From<io::Error>`. */
  function FromIo(err: IoError): (e: Error)
    ensures e.kind.Io? && e.kind.io == err
    ensures Display(e) == err.text
  {
    New(Io(err))
  }

  /** `From<String>`. */
  function FromString(s: string): (e: Error)
    ensures e.kind.Other? && e.kind.message == s
    ensures Display(e) == s
  {
    New(Other(s))
  }

  /** `From<&'static str>`: the same as converting the owned string. */
  function FromStr(s: string): (e: Error)
    ensures e == FromString(s)
    ensures Display(e) == s
  {
    FromString(s)
  }

  /** `From<SysError>`. */
  function FromSys(err: SysError): (e: Error)
    ensures e.kind.Sys? && e.kind.sys == err
    ensures Display(e) == err.text
  {
    New(Sys(err))
  }

  /** Converting a string and displaying the error gives the string back, and the
      debug form adds exactly one line break. */
  lemma DisplayRoundTrip(s: string)
    ensures Display(FromString(s)) == s && Display(FromStr(s)) == s
    ensures Debug(FromString(s)) == s + "\n"
  {
  }

  /** Errors of different kinds are different errors, whatever they wrap. */
  lemma KindsDistinct(io: IoError, sys: SysError, s: string)
    ensures FromIo(io) != FromSys(sys) && FromIo(io) != FromString(s) && FromSys(sys) != FromString(s)
  {
  }
}
