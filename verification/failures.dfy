/** The exceptions the plugin raises or lets escape, as one closed taxonomy. */
module Failures {

  datatype Error =
    | IOError                     // java.io.IOException (generic I/O failure)
    | NoSuchFile                  // java.nio.file.NoSuchFileException
    | AccessDenied                // java.nio.file.AccessDeniedException
    | IllegalArgument             // IllegalArgumentException (configuration error)
    | NoSuchElement               // NoSuchElementException from an exhausted iterator
    | StorageFailure(status: int) // an unmapped BlobStorageException escaping as a RuntimeException

  /** The errors that are `IOException`s in Java (the two `java.nio.file`
      exceptions are subclasses of it). */
  predicate IsIOException(e: Error) {
    e.IOError? || e.NoSuchFile? || e.AccessDenied?
  }

  /** The status-code translation shared by `stat`, the HEAD and GET requests
      and the stream factory: 403 and 404 become the typed file-system
      errors, every other status a generic I/O failure. */
  function FromStatus(status: int): (e: Error)
    ensures IsIOException(e)
    ensures e == AccessDenied <==> status == 403
    ensures e == NoSuchFile <==> status == 404
  {
    if status == 403 then AccessDenied
    else if status == 404 then NoSuchFile
    else IOError
  }
}
