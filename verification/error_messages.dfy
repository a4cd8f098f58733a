/**
 * Turning a backend error body into the message shown to the operator.
 * The JSON library is not modelled: what `DeserializeObject` makes of a body is
 * a `Deserialized` value, supplied from outside.
 */
module ErrorMessages {
  import opened Wrappers

  /** The outcome of `JsonConvert.DeserializeObject<T>(body)`. */
  datatype Deserialized<+T> =
    | Threw              // the body is not JSON of the expected shape; the library throws
    | Null               // the body is the JSON literal null (or empty), so the result is null
    | Parsed(value: T)

  /** The private `ErrorResponse` class: a single, possibly null, `message`. */
  datatype ErrorResponse = ErrorResponse(message: Option<string>)

  /** The message used whenever no message can be read from the body. */
  const Fallback := "Có lỗi xảy ra."

  /**
   * `ExtractMessage`: total over all bodies. The parsed `message` when there is
   * one, otherwise the fallback, whether parsing threw, gave null, or gave an
   * object whose `message` is null.
   */
  function ExtractMessage(body: string, deserialize: string -> Deserialized<ErrorResponse>): (m: string)
    ensures deserialize(body).Parsed? && deserialize(body).value.message.Some? ==>
              m == deserialize(body).value.message.value
    ensures deserialize(body).Threw? || deserialize(body).Null? ==> m == Fallback
    ensures deserialize(body).Parsed? && deserialize(body).value.message.None? ==> m == Fallback
  {
    match deserialize(body)
    case Threw => Fallback
    case Null => Fallback
    case Parsed(obj) => obj.message.GetOr(Fallback)
  }

  /** A message other than the fallback was read from the body, verbatim. */
  lemma ExtractMessageSource(body: string, deserialize: string -> Deserialized<ErrorResponse>)
    ensures ExtractMessage(body, deserialize) != Fallback ==>
              deserialize(body) == Parsed(ErrorResponse(Some(ExtractMessage(body, deserialize))))
  {
  }
}
