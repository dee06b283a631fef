/** Success and failure wrappers, and the Python exceptions the property core lets escape. */
module Wrappers {

  datatype Option<+T> = None | Some(value: T)

  datatype Result<+T, +E> = Success(value: T) | Failure(error: E)

  /** The result of an operation that returns nothing but may raise. */
  datatype Outcome<+E> = Pass | Fail(error: E)

  /** The exceptions raised by the core, by Python class. */
  datatype PyError =
    | KeyError          // a missing key, an empty set, or an instance the property was never registered on
    | IndexError        // a list index outside the list
    | ValueError        // an initial value of the wrong kind, or a default that is not an allowed option
    | AttributeError    // an attempt to delete a property
    | ComparisonFailed  // an inequality test that raised instead of giving one boolean

  /**
   * An argument whose Python type the source checks at run time: either an
   * object of the expected container kind, carrying its contents, or some
   * other object.
   */
  datatype Typed<+T> = OfKind(contents: T) | NotOfKind
}
