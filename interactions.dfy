/**
 * `Interactions`: the reconstructed view of each interaction returned by the
 * interactions report, and the status derived from its error message.
 */
module Interactions {
  import opened Wrappers
  import opened JavaText
  import opened AuditModel

  /** `Interaction.InteractionStatus`; UNKNOWN is declared but never derived. */
  datatype InteractionStatus = SUCCESS | FAILURE | UNKNOWN

  /** True when `s` holds a character other than whitespace, i.e. it is not blank. */
  predicate HasNonWhitespace(s: string)
  {
    exists i :: 0 <= i < |s| && !IsWhitespace(s[i])
  }

  datatype Interaction = Interaction(
    interactionId: Uuid,
    interactionDate: int,
    systemMessage: Str,
    userMessage: Str,
    result: Str,
    errorMessage: Str,
    causeErrorMessage: Str)
  {
    /**
     * FAILURE exactly when the error message is present and not blank after
     * `strip()`, SUCCESS otherwise; never UNKNOWN. Only the error message is
     * consulted.
     */
    function GetStatus(): (status: InteractionStatus)
      ensures status != UNKNOWN
      ensures status == FAILURE <==> errorMessage.Some? && HasNonWhitespace(errorMessage.value)
    {
      match errorMessage
      case None => SUCCESS
      case Some(message) => if Strip(message) == [] then SUCCESS else FAILURE
    }

    /** `isFailure()`: the error message is present and not blank. */
    function IsFailure(): (failed: bool)
      ensures failed <==> errorMessage.Some? && HasNonWhitespace(errorMessage.value)
    {
      GetStatus() == FAILURE
    }

    /** `isSuccess()`: the error message is absent or blank. */
    function IsSuccess(): (succeeded: bool)
      ensures succeeded <==> errorMessage.None? || !HasNonWhitespace(errorMessage.value)
    {
      GetStatus() == SUCCESS
    }
  }

  /** Every interaction is either a success or a failure, and never both. */
  lemma ExactlyOneOutcome(interaction: Interaction)
    ensures interaction.IsFailure() != interaction.IsSuccess()
  {
  }

  /** `Interaction.success(...)`: no error fields, hence a SUCCESS. */
  function Success(interactionId: Uuid, interactionDate: int, systemMessage: Str, userMessage: Str, result: Str): (r: Interaction)
    ensures r.errorMessage == None && r.causeErrorMessage == None
    ensures r.GetStatus() == SUCCESS
    ensures r.interactionId == interactionId && r.interactionDate == interactionDate
    ensures r.systemMessage == systemMessage && r.userMessage == userMessage && r.result == result
  {
    Interaction(interactionId, interactionDate, systemMessage, userMessage, result, None, None)
  }

  /**
   * `Interaction.failure(...)`: no result; it is reported as a FAILURE only
   * when the given error message is non-blank.
   */
  function Failure(interactionId: Uuid, interactionDate: int, systemMessage: Str, userMessage: Str, errorMessage: Str, causeErrorMessage: Str): (r: Interaction)
    ensures r.result == None
    ensures r.GetStatus() == FAILURE <==> errorMessage.Some? && HasNonWhitespace(errorMessage.value)
    ensures r.interactionId == interactionId && r.interactionDate == interactionDate
    ensures r.systemMessage == systemMessage && r.userMessage == userMessage
    ensures r.errorMessage == errorMessage && r.causeErrorMessage == causeErrorMessage
  {
    Interaction(interactionId, interactionDate, systemMessage, userMessage, None, errorMessage, causeErrorMessage)
  }

  /** The interactions report: the resolved window and the interactions found in it. */
  datatype Interactions = Interactions(auditDates: AuditDates, interactions: seq<Interaction>)

  /** `Interactions.empty(d)`: window `d`, no interactions. */
  function Empty(auditDates: AuditDates): (r: Interactions)
    ensures r.auditDates == auditDates && |r.interactions| == 0
  {
    Interactions(auditDates, [])
  }

  /** A whitespace-only error message, as the failure factory accepts, still reports SUCCESS. */
  lemma BlankErrorIsSuccess(id: Uuid, date: int)
    ensures Failure(id, date, None, None, Some(" \t\n"), Some("cause")).GetStatus() == SUCCESS
  {
    assert !HasNonWhitespace(" \t\n");
  }
}
