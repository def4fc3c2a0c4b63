/**
 * The analysis request hook: three state cells (the last analysis result,
 * a loading flag and an error message) and the transitions that start a
 * request, record its outcome, and clear the result or the error.
 *
 * The request itself is asynchronous in the front end.  Here it is split at
 * its `await`: `BeginAnalysis` is what runs before the request is sent,
 * `FinishAnalysis` what runs once the request has settled, and the outcome
 * of the request is a parameter.  The hook never looks inside a result, so
 * its type is the parameter `R`.
 */
module AnalysisHook {
  import opened Wrappers

  /** What a `catch` clause can receive: an `Error` instance with its message, or any other thrown value. */
  datatype Thrown = ErrorInstance(message: string) | OtherValue

  /** How the analysis request settled. */
  datatype Outcome<R> = Resolved(result: R) | Rejected(thrown: Thrown)

  /**
   * The request body the hook sends: the title and description as given, and
   * fixed options (historical matches and live insights on, a confidence
   * threshold of 0.7, kept here in hundredths).
   */
  datatype AnalysisRequest = AnalysisRequest(
    title: string,
    description: string,
    includeHistorical: bool,
    includeLiveInsights: bool,
    confidenceThresholdHundredths: nat)

  const FallbackErrorMessage := "Analysis failed"

  /** The message shown for a failed request: the error's own message, or a fixed fallback for a non-`Error` value. */
  function ErrorMessage(thrown: Thrown): (m: string)
    ensures thrown.ErrorInstance? ==> m == thrown.message
    ensures thrown.OtherValue? ==> m == FallbackErrorMessage
  {
    match thrown
    case ErrorInstance(message) => message
    case OtherValue => FallbackErrorMessage
  }

  class AnalysisState<R> {
    var analysis: Option<R>
    var loading: bool
    var error: Option<string>

    /**
     * An error is never on show while a request is in flight.  No transition
     * requires it: each one establishes it from any state.
     */
    ghost predicate Valid()
      reads this
    {
      loading ==> error.None?
    }

    /** No analysis, not loading, no error. */
    constructor ()
      ensures analysis.None? && !loading && error.None?
      ensures Valid()
    {
      analysis, loading, error := None, false, None;
    }

    /** The part of `analyzeProposal` before the `await`: loading on, error cleared, the request built. */
    method BeginAnalysis(title: string, description: string) returns (request: AnalysisRequest)
      modifies this`loading, this`error
      ensures loading && error.None?
      ensures analysis == old(analysis)
      ensures request.title == title && request.description == description
      ensures request.includeHistorical && request.includeLiveInsights
      ensures request.confidenceThresholdHundredths == 70
      ensures Valid()
    {
      loading := true;
      error := None;
      request := AnalysisRequest(title, description, true, true, 70);
    }

    /**
     * The part of `analyzeProposal` after the `await`: a result replaces the
     * analysis, a rejection sets the error message and keeps the analysis,
     * and loading is switched off either way.
     */
    method FinishAnalysis(outcome: Outcome<R>)
      modifies this
      ensures !loading
      ensures outcome.Resolved? ==> analysis == Some(outcome.result) && error == old(error)
      ensures outcome.Rejected? ==> analysis == old(analysis) && error == Some(ErrorMessage(outcome.thrown))
      ensures Valid()
    {
      match outcome {
        case Resolved(result) =>
          analysis := Some(result);
        case Rejected(thrown) =>
          error := Some(ErrorMessage(thrown));
      }
      loading := false;
    }

    /** `analyzeProposal` as a whole, given how the request settles. */
    method AnalyzeProposal(title: string, description: string, outcome: Outcome<R>)
      returns (request: AnalysisRequest)
      modifies this
      ensures request == AnalysisRequest(title, description, true, true, 70)
      ensures !loading
      ensures outcome.Resolved? ==> analysis == Some(outcome.result) && error.None?
      ensures outcome.Rejected? ==> analysis == old(analysis) && error == Some(ErrorMessage(outcome.thrown))
      ensures Valid()
    {
      request := BeginAnalysis(title, description);
      FinishAnalysis(outcome);
    }

    /** `clearAnalysis`: drops the result and the error, leaves loading alone. */
    method ClearAnalysis()
      modifies this`analysis, this`error
      ensures analysis.None? && error.None?
      ensures Valid()
    {
      analysis := None;
      error := None;
    }

    /** `clearError`: drops the error only. */
    method ClearError()
      modifies this`error
      ensures error.None?
      ensures Valid()
    {
      error := None;
    }
  }
}
