// The errors that resolving and browsing report, as far as they are told apart.
module NetServiceErrors {
  datatype Err = NoError | TimedOut | Cancelled | Invalid | InProgress | Failed(code: int)
}
