/** Option and Result, and the errors the device manager can report. */
module Wrappers {

  datatype Option<+T> = None | Some(value: T)

  /** The kinds of error the modelled code produces or passes on. */
  datatype Error =
    | PatternError(pattern: string)       // regexp.MatchString could not compile the pattern
    | NotExist(path: string)              // os.Remove on a path that is not there
    | RemoveError(path: string)           // any other os.Remove failure (permission, ...)
    | ListenError(path: string)           // net.Listen("unix", path) failed
    | DialError(target: string)           // grpc.Dial gave up (timeout or refused)
    | RegisterError(resourceName: string) // the kubelet rejected the registration call
    | UnknownDevice(id: string)           // Allocate named a device id that is not advertised
    | ClosedChannelPanic                  // close() of an already closed channel: a Go panic

  datatype Result<+T> = Ok(value: T) | Err(error: Error)
}
