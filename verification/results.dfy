/**
 Failure-carrying outcomes shared by the whole model. Every exception the
 client library raises or lets through becomes a `Fail` value here.
 */
module Results {

  /** A value that may be absent: the model of a nullable reference. */
  datatype Option<+T> = None | Some(value: T)

  /** The exceptions the modelled code raises or passes on. */
  datatype Error =
    | ArgumentNull(paramName: string)
      // ArgumentNullException raised by the client constructor
    | DuplicateKey(key: string)
      // ArgumentException raised by Dictionary.Add for a key already present
    | MissingRequiredProperty(name: string)
      // a builder's required property is missing, null or empty
    | Thrown(description: string)
      // any exception raised inside an injected collaborator

  /** The result of a step that either yields a value or throws. */
  datatype Result<+T> = Ok(value: T) | Fail(error: Error) {

    predicate IsFailure() {
      Fail?
    }

    function PropagateFailure<U>(): Result<U>
      requires Fail?
    {
      Fail(error)
    }

    function Extract(): T
      requires Ok?
    {
      value
    }
  }
}
