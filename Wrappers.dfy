/** Option and exception-carrying outcomes shared by the broker model.
    A C# `null` reference becomes `None`; a thrown exception becomes `Threw`. */
module Wrappers {

  datatype Option<+T> = None | Some(value: T)

  /** The .NET exceptions that the modelled code raises or lets through. */
  datatype Exception =
    | MsalClientException(message: string)
    | InvalidOperationException
    /** `IDictionary.Add` on a key that is already present. */
    | DuplicateKeyException(key: string)
    /** Indexing element 0 of an empty `IReadOnlyList` (a projected WinRT vector). */
    | ArgumentOutOfRangeException

  /** The result of a member that either returns a value or throws. */
  datatype Outcome<+T> = Returned(value: T) | Threw(exception: Exception)
}
