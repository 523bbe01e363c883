// Result types shared by every component.
module Base {
  datatype Option<+T> = None | Some(value: T)

  // The classes of RPC and signer failure (libs/gas/src/types.ts).
  datatype ErrorType = Retryable | Permanent | Unknown
}
