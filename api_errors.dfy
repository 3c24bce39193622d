/**
 * `handleApiError`: the service's single error path. Whatever a remote call
 * or the service's own checks throw is mapped, by case-sensitive substring
 * tests on the error's message taken in a fixed order, to one user-facing
 * message, which is then thrown as a new error. The function never returns
 * normally; the model returns the message of the error it throws.
 */
module ApiErrors {
  import opened Text

  /** A thrown value: an `Error` object with its message, or anything else. */
  datatype Thrown = ErrorObject(message: string) | OtherValue

  /** The kinds of failure the user is told apart. */
  datatype Category = InvalidKey | QuotaExceeded | SafetyBlocked | NetworkFailure | Unexpected | UnknownValue

  /** The chain of tests on the message; the first that succeeds decides. */
  function Classify(error: Thrown): (c: Category)
    ensures c == UnknownValue <==> error.OtherValue?
    ensures c == InvalidKey <==> error.ErrorObject? && Contains(error.message, "API key not valid")
    ensures c == QuotaExceeded <==>
      error.ErrorObject? && !Contains(error.message, "API key not valid") && Contains(error.message, "quota")
    ensures c == SafetyBlocked <==>
      error.ErrorObject? && !Contains(error.message, "API key not valid") && !Contains(error.message, "quota") &&
      (Contains(error.message, "safety") || Contains(error.message, "blocked"))
    ensures c == NetworkFailure <==>
      error.ErrorObject? && !Contains(error.message, "API key not valid") && !Contains(error.message, "quota") &&
      !Contains(error.message, "safety") && !Contains(error.message, "blocked") &&
      (Contains(error.message, "fetch failed") || Contains(error.message, "network"))
  {
    match error
    case OtherValue => UnknownValue
    case ErrorObject(msg) =>
      if Contains(msg, "API key not valid") then InvalidKey
      else if Contains(msg, "quota") then QuotaExceeded
      else if Contains(msg, "safety") || Contains(msg, "blocked") then SafetyBlocked
      else if Contains(msg, "fetch failed") || Contains(msg, "network") then NetworkFailure
      else Unexpected
  }

  /**
   * The message shown for each kind of failure; `context` names the operation
   * that failed. (Long texts are written as concatenations of shorter literals,
   * which the verifier can index into.)
   */
  function Message(c: Category, context: string): string
  {
    match c
    case UnknownValue => "An unknown error occurred during " + context + "."
    case InvalidKey => "The provided API key is invalid. " + "Please check your configuration."
    case QuotaExceeded => "You have exceeded your API quota. " + "Please check your account status and billing."
    case SafetyBlocked =>
      "The request was blocked " + "for safety reasons during " + context
        + ". Please adjust your custom details " + "or try a different style."
    case NetworkFailure => "A network error occurred. " + "Please check your internet connection and try again."
    case Unexpected => "An unexpected error occurred during " + context + ". Please try again."
  }

  /** The message of the error `handleApiError` throws. */
  function HandleApiError(error: Thrown, context: string): string
  {
    Message(Classify(error), context)
  }

  /**
   * Different kinds of failure always read differently, whatever operation
   * each happened in: the message tells the user which kind it was.
   */
  lemma MessagesDistinct(c1: Category, context1: string, c2: Category, context2: string)
    requires Message(c1, context1) == Message(c2, context2)
    ensures c1 == c2
  {
    MessageOpening(c1, context1);
    MessageOpening(c2, context2);
  }

  /** The first six characters of each message, which no two kinds share. */
  function Opening(c: Category): string
  {
    match c
    case UnknownValue => "An unk"
    case InvalidKey => "The pr"
    case QuotaExceeded => "You ha"
    case SafetyBlocked => "The re"
    case NetworkFailure => "A netw"
    case Unexpected => "An une"
  }

  /** Helper for `MessagesDistinct`: every message starts with the opening of its kind. */
  lemma MessageOpening(c: Category, context: string)
    ensures |Message(c, context)| >= 6 && Message(c, context)[..6] == Opening(c)
  {
    match c
    case UnknownValue => OpeningOfUnknownValue(context);
    case InvalidKey => OpeningOfInvalidKey(context);
    case QuotaExceeded => OpeningOfQuotaExceeded(context);
    case SafetyBlocked => OpeningOfSafetyBlocked(context);
    case NetworkFailure => OpeningOfNetworkFailure(context);
    case Unexpected => OpeningOfUnexpected(context);
  }

  // One lemma per kind keeps each literal comparison in a proof of its own.

  lemma OpeningOfUnknownValue(context: string)
    ensures |Message(UnknownValue, context)| >= 6 && Message(UnknownValue, context)[..6] == Opening(UnknownValue)
  {
  }

  lemma OpeningOfInvalidKey(context: string)
    ensures |Message(InvalidKey, context)| >= 6 && Message(InvalidKey, context)[..6] == Opening(InvalidKey)
  {
  }

  lemma OpeningOfQuotaExceeded(context: string)
    ensures |Message(QuotaExceeded, context)| >= 6 && Message(QuotaExceeded, context)[..6] == Opening(QuotaExceeded)
  {
  }

  lemma OpeningOfSafetyBlocked(context: string)
    ensures |Message(SafetyBlocked, context)| >= 6 && Message(SafetyBlocked, context)[..6] == Opening(SafetyBlocked)
  {
  }

  lemma OpeningOfNetworkFailure(context: string)
    ensures |Message(NetworkFailure, context)| >= 6 && Message(NetworkFailure, context)[..6] == Opening(NetworkFailure)
  {
  }

  lemma OpeningOfUnexpected(context: string)
    ensures |Message(Unexpected, context)| >= 6 && Message(Unexpected, context)[..6] == Opening(Unexpected)
  {
  }

  /**
   * The messages that depend on where the failure happened name that
   * operation; the others are fixed texts.
   */
  lemma ContextReported(error: Thrown, context: string)
    ensures var c := Classify(error);
      c in {UnknownValue, SafetyBlocked, Unexpected} ==> Contains(HandleApiError(error, context), context)
    ensures var c := Classify(error);
      c !in {UnknownValue, SafetyBlocked, Unexpected} ==> HandleApiError(error, context) == HandleApiError(error, "")
  {
    var c := Classify(error);
    var m := HandleApiError(error, context);
    if c == UnknownValue {
      var lead := "An unknown error occurred during ";
      assert m == lead + context + ".";
      assert m[|lead|..|lead| + |context|] == context;
      ContainsAt(m, context, |lead|);
    } else if c == SafetyBlocked {
      var lead := "The request was blocked " + "for safety reasons during ";
      assert m == lead + context + (". Please adjust your custom details " + "or try a different style.");
      assert m[|lead|..|lead| + |context|] == context;
      ContainsAt(m, context, |lead|);
    } else if c == Unexpected {
      var lead := "An unexpected error occurred during ";
      assert m == lead + context + ". Please try again.";
      assert m[|lead|..|lead| + |context|] == context;
      ContainsAt(m, context, |lead|);
    }
  }

  /** None of the substrings `handleApiError` looks for occurs in `message`. */
  predicate Unclassifiable(message: string)
  {
    !Contains(message, "API key not valid") && !Contains(message, "quota") &&
    !Contains(message, "safety") && !Contains(message, "blocked") &&
    !Contains(message, "fetch failed") && !Contains(message, "network")
  }

  /** A message none of the tests recognises is reported as an unexpected error of its operation. */
  lemma UnclassifiableIsUnexpected(message: string, context: string)
    requires Unclassifiable(message)
    ensures HandleApiError(ErrorObject(message), context) == Message(Unexpected, context)
  {
  }
}
