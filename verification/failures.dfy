/** The values the client throws, rejects with, or receives from its collaborators. */
module Failures {

  /** An error value handed to the client by jsftp or by the filesystem; opaque here. */
  datatype LibError = LibError(description: string)

  /** Whatever a promise of the client is rejected with, or `main` catches. */
  datatype Reason =
    | Message(text: string)         // a bare string passed to `reject`
    | ErrorObject(message: string)  // an `Error` the client constructs and throws
    | Library(err: LibError)        // a collaborator's error, passed on unchanged
    | NullDereference               // the TypeError of calling a method on the absent handle

  /** Outcome of a collaborator step that produces no value (connecting, writing a file). */
  datatype Status = Done | Failed(err: LibError)

  /** The string both wrappers reject with when the module-level handle is unset. */
  const NULL_HANDLE_MESSAGE: string := "ftp is null"
}
