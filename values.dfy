/** Small value types shared by the model of the Yousign iframe SDK. */
module Values {

  /** A value that may be absent (JavaScript `null` or `undefined`). */
  datatype Option<+T> = None | Some(value: T)

  /** Either a value or the error a JavaScript `throw` would raise. */
  datatype Result<+R, +E> = Ok(value: R) | Err(error: E)

  /** How a nullable string renders inside a template literal: `null` becomes the text "null". */
  function TemplateText(v: Option<string>): string {
    match v
    case Some(s) => s
    case None => "null"
  }

  /** A template literal cannot tell a missing value from the string "null". */
  lemma MissingRendersAsTextNull()
    ensures TemplateText(None) == TemplateText(Some("null"))
  {
  }

  /** JavaScript truthiness of a value that is either a string or absent. */
  predicate Truthy(v: Option<string>) {
    v.Some? && v.value != ""
  }
}
