/**
 * `POST /api/convert` of `app/api/convert/route.ts`: parse the body, refuse
 * a missing or empty text or format, and otherwise answer with the
 * converted text of `AiText.ConvertContent`.
 */
module ConvertRoute {
  import opened Wrappers
  import opened ApiEnvelope
  import AiText

  const MissingFields := "Text and format are required"
  const ConversionFailed := "Failed to convert content"

  /** The request as the route reads it; `None` is an absent field. */
  datatype Request = Unparsable | Body(text: Option<string>, format: Option<string>)

  datatype Converted = Converted(convertedText: string)

  /** A JavaScript string is truthy unless it is absent or empty. */
  predicate Truthy(s: Option<string>)
  {
    s.Some? && s.value != ""
  }

  function Post(request: Request): (r: Response<Converted>)
    ensures WellFormed(r)
    ensures r.status in {Ok, BadRequest, ServerError}
  {
    match request
    case Unparsable => Fail(ServerError, ConversionFailed)
    case Body(text, format) =>
      if !Truthy(text) || !Truthy(format) then Fail(BadRequest, MissingFields)
      else Succeed(Converted(AiText.ConvertContent(text.value, format.value)))
  }

  /**
   * A parsed request is refused with 400 exactly when its text or format is
   * missing or empty, and otherwise answered with the converted text; an
   * unparsable one gets 500.
   */
  lemma PostRules(request: Request)
    ensures request.Unparsable? ==> Post(request) == Fail(ServerError, ConversionFailed)
    ensures request.Body? ==>
              (Post(request).status == BadRequest <==> !Truthy(request.text) || !Truthy(request.format))
              && (Post(request).success <==> Truthy(request.text) && Truthy(request.format))
              && (Post(request).status == BadRequest ==> Post(request).error == Some(MissingFields))
              && (Post(request).success ==>
                    Post(request).status == Ok
                    && Post(request).data.value.convertedText
                       == AiText.ConvertContent(request.text.value, request.format.value))
  {
  }

  /** A non-empty format the service does not know passes validation and echoes the text. */
  lemma UnknownFormatEchoes(text: string, format: string)
    requires text != "" && format != ""
    requires format !in {AiText.SimplifiedFormat, AiText.VisualFormat, AiText.DyslexiaFormat, AiText.AudioFormat}
    ensures Post(Body(Some(text), Some(format))) == Succeed(Converted(text))
  {
    AiText.OtherFormatIsIdentity(text, format);
  }
}
