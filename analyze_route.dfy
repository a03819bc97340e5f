/**
 * `POST /api/analyze` of `app/api/analyze/route.ts`: parse the body, refuse
 * a request with no data source at all, and otherwise answer with the
 * analysis of `AiService`.
 */
module AnalyzeRoute {
  import opened Wrappers
  import opened ApiEnvelope
  import AiService

  const MissingSources := "At least one data source is required"
  const AnalysisFailed := "Failed to process analysis"

  /** The request as the route reads it: a body that is not JSON makes `request.json()` throw. */
  datatype Request = Unparsable | Body(input: AiService.AnalysisInput)

  /** A present source is truthy, even an empty record or an empty list. */
  predicate HasSource(input: AiService.AnalysisInput)
  {
    input.teacherResponses.Some? || input.parentResponses.Some? || input.studentQuizAnswers.Some?
  }

  function Post(request: Request): (r: Response<AiService.AnalysisResult>)
    ensures WellFormed(r)
    ensures r.status in {Ok, BadRequest, ServerError}
  {
    match request
    case Unparsable => Fail(ServerError, AnalysisFailed)
    case Body(input) =>
      if !HasSource(input) then Fail(BadRequest, MissingSources)
      else Succeed(AiService.Analysis(input))
  }

  /**
   * A parsed request is refused with 400 exactly when all three sources are
   * absent, and otherwise answered with its analysis; an unparsable one gets
   * 500.
   */
  lemma PostRules(request: Request)
    ensures request.Unparsable? ==> Post(request) == Fail(ServerError, AnalysisFailed)
    ensures request.Body? ==>
              (Post(request).status == BadRequest <==> !HasSource(request.input))
              && (Post(request).success <==> HasSource(request.input))
              && (!HasSource(request.input) ==> Post(request).error == Some(MissingSources) && Post(request).data.None?)
              && (HasSource(request.input) ==>
                    Post(request).status == Ok && Post(request).data == Some(AiService.Analysis(request.input)))
  {
  }

  /** A single source passes validation even when it is an empty record or an empty list. */
  lemma EmptySourcePasses(input: AiService.AnalysisInput)
    requires input.teacherResponses == Some([]) || input.parentResponses == Some([])
             || input.studentQuizAnswers == Some([])
    ensures Post(Body(input)).success && Post(Body(input)).status == Ok
  {
  }
}
