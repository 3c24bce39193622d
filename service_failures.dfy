/**
 * The errors the service throws itself, when a remote answer lacks what it
 * needs, and the proof that `handleApiError` recognises none of them: each
 * reaches the user as the unexpected-error message of its operation.
 *
 * The texts are written as short literal pieces, and each is shown to miss
 * every substring the classifier looks for by naming one character of that
 * substring, or one pair of adjacent characters, that the text lacks.
 */
module ServiceFailures {
  import opened Text
  import opened ApiErrors

  /** Thrown when background removal yields no image. */
  const RemovalFailedMessage := "The AI failed " + "to remove the " + "background. " + "The model did " + "not return a " + "valid image."

  /** Thrown when the response holds no generated image at all. */
  const NoImagesMessage := "The AI failed " + "to generate a " + "background. " + "The model did " + "not return any " + "images."

  /** Thrown when a generated entry holds no bytes. */
  const EmptyImageMessage := "An image was " + "generated but " + "contained no " + "data. Please " + "try again."

  /** Thrown when compositing yields no image. */
  const CompositeFailedMessage := "The AI failed " + "to combine the " + "images. The " + "model did not " + "return a final " + "composite."

  lemma RemovalLacksKey()
    ensures !Contains(RemovalFailedMessage, "API key not valid")
  {
    MissingChar(RemovalFailedMessage, "API key not valid", 1);
  }

  lemma RemovalLacksQuota()
    ensures !Contains(RemovalFailedMessage, "quota")
  {
    MissingChar(RemovalFailedMessage, "quota", 0);
  }

  lemma RemovalLacksSafety()
    ensures !Contains(RemovalFailedMessage, "safety")
  {
    MissingChar(RemovalFailedMessage, "safety", 0);
  }

  lemma RemovalLacksBlocked()
    ensures !Contains(RemovalFailedMessage, "blocked")
  {
    PairJoin("The AI failed ", "to remove the ", 'b', 'l');
    PairJoin("The AI failed " + "to remove the ", "background. ", 'b', 'l');
    PairJoin("The AI failed " + "to remove the " + "background. ", "The model did ", 'b', 'l');
    PairJoin("The AI failed " + "to remove the " + "background. " + "The model did ", "not return a ", 'b', 'l');
    PairJoin("The AI failed " + "to remove the " + "background. " + "The model did " + "not return a ", "valid image.", 'b', 'l');
    MissingPair(RemovalFailedMessage, "blocked", 0);
  }

  lemma RemovalLacksFetch()
    ensures !Contains(RemovalFailedMessage, "fetch failed")
  {
    PairJoin("The AI failed ", "to remove the ", 'f', 'e');
    PairJoin("The AI failed " + "to remove the ", "background. ", 'f', 'e');
    PairJoin("The AI failed " + "to remove the " + "background. ", "The model did ", 'f', 'e');
    PairJoin("The AI failed " + "to remove the " + "background. " + "The model did ", "not return a ", 'f', 'e');
    PairJoin("The AI failed " + "to remove the " + "background. " + "The model did " + "not return a ", "valid image.", 'f', 'e');
    MissingPair(RemovalFailedMessage, "fetch failed", 0);
  }

  lemma RemovalLacksNetwork()
    ensures !Contains(RemovalFailedMessage, "network")
  {
    MissingChar(RemovalFailedMessage, "network", 3);
  }

  /** `RemovalFailedMessage` falls through every test of `handleApiError`. */
  lemma RemovalUnclassifiable()
    ensures Unclassifiable(RemovalFailedMessage)
  {
    RemovalLacksKey();
    RemovalLacksQuota();
    RemovalLacksSafety();
    RemovalLacksBlocked();
    RemovalLacksFetch();
    RemovalLacksNetwork();
  }

  lemma NoImagesLacksKey()
    ensures !Contains(NoImagesMessage, "API key not valid")
  {
    MissingChar(NoImagesMessage, "API key not valid", 1);
  }

  lemma NoImagesLacksQuota()
    ensures !Contains(NoImagesMessage, "quota")
  {
    MissingChar(NoImagesMessage, "quota", 0);
  }

  lemma NoImagesLacksSafety()
    ensures !Contains(NoImagesMessage, "safety")
  {
    PairJoin("The AI failed ", "to generate a ", 's', 'a');
    PairJoin("The AI failed " + "to generate a ", "background. ", 's', 'a');
    PairJoin("The AI failed " + "to generate a " + "background. ", "The model did ", 's', 'a');
    PairJoin("The AI failed " + "to generate a " + "background. " + "The model did ", "not return any ", 's', 'a');
    PairJoin("The AI failed " + "to generate a " + "background. " + "The model did " + "not return any ", "images.", 's', 'a');
    MissingPair(NoImagesMessage, "safety", 0);
  }

  lemma NoImagesLacksBlocked()
    ensures !Contains(NoImagesMessage, "blocked")
  {
    PairJoin("The AI failed ", "to generate a ", 'b', 'l');
    PairJoin("The AI failed " + "to generate a ", "background. ", 'b', 'l');
    PairJoin("The AI failed " + "to generate a " + "background. ", "The model did ", 'b', 'l');
    PairJoin("The AI failed " + "to generate a " + "background. " + "The model did ", "not return any ", 'b', 'l');
    PairJoin("The AI failed " + "to generate a " + "background. " + "The model did " + "not return any ", "images.", 'b', 'l');
    MissingPair(NoImagesMessage, "blocked", 0);
  }

  lemma NoImagesLacksFetch()
    ensures !Contains(NoImagesMessage, "fetch failed")
  {
    PairJoin("The AI failed ", "to generate a ", 'f', 'e');
    PairJoin("The AI failed " + "to generate a ", "background. ", 'f', 'e');
    PairJoin("The AI failed " + "to generate a " + "background. ", "The model did ", 'f', 'e');
    PairJoin("The AI failed " + "to generate a " + "background. " + "The model did ", "not return any ", 'f', 'e');
    PairJoin("The AI failed " + "to generate a " + "background. " + "The model did " + "not return any ", "images.", 'f', 'e');
    MissingPair(NoImagesMessage, "fetch failed", 0);
  }

  lemma NoImagesLacksNetwork()
    ensures !Contains(NoImagesMessage, "network")
  {
    MissingChar(NoImagesMessage, "network", 3);
  }

  /** `NoImagesMessage` falls through every test of `handleApiError`. */
  lemma NoImagesUnclassifiable()
    ensures Unclassifiable(NoImagesMessage)
  {
    NoImagesLacksKey();
    NoImagesLacksQuota();
    NoImagesLacksSafety();
    NoImagesLacksBlocked();
    NoImagesLacksFetch();
    NoImagesLacksNetwork();
  }

  lemma EmptyImageLacksKey()
    ensures !Contains(EmptyImageMessage, "API key not valid")
  {
    MissingChar(EmptyImageMessage, "API key not valid", 2);
  }

  lemma EmptyImageLacksQuota()
    ensures !Contains(EmptyImageMessage, "quota")
  {
    MissingChar(EmptyImageMessage, "quota", 0);
  }

  lemma EmptyImageLacksSafety()
    ensures !Contains(EmptyImageMessage, "safety")
  {
    MissingChar(EmptyImageMessage, "safety", 2);
  }

  lemma EmptyImageLacksBlocked()
    ensures !Contains(EmptyImageMessage, "blocked")
  {
    MissingChar(EmptyImageMessage, "blocked", 4);
  }

  lemma EmptyImageLacksFetch()
    ensures !Contains(EmptyImageMessage, "fetch failed")
  {
    MissingChar(EmptyImageMessage, "fetch failed", 0);
  }

  lemma EmptyImageLacksNetwork()
    ensures !Contains(EmptyImageMessage, "network")
  {
    MissingChar(EmptyImageMessage, "network", 6);
  }

  /** `EmptyImageMessage` falls through every test of `handleApiError`. */
  lemma EmptyImageUnclassifiable()
    ensures Unclassifiable(EmptyImageMessage)
  {
    EmptyImageLacksKey();
    EmptyImageLacksQuota();
    EmptyImageLacksSafety();
    EmptyImageLacksBlocked();
    EmptyImageLacksFetch();
    EmptyImageLacksNetwork();
  }

  lemma CompositeLacksKey()
    ensures !Contains(CompositeFailedMessage, "API key not valid")
  {
    MissingChar(CompositeFailedMessage, "API key not valid", 1);
  }

  lemma CompositeLacksQuota()
    ensures !Contains(CompositeFailedMessage, "quota")
  {
    MissingChar(CompositeFailedMessage, "quota", 0);
  }

  lemma CompositeLacksSafety()
    ensures !Contains(CompositeFailedMessage, "safety")
  {
    MissingChar(CompositeFailedMessage, "safety", 5);
  }

  lemma CompositeLacksBlocked()
    ensures !Contains(CompositeFailedMessage, "blocked")
  {
    MissingChar(CompositeFailedMessage, "blocked", 4);
  }

  lemma CompositeLacksFetch()
    ensures !Contains(CompositeFailedMessage, "fetch failed")
  {
    PairJoin("The AI failed ", "to combine the ", 'f', 'e');
    PairJoin("The AI failed " + "to combine the ", "images. The ", 'f', 'e');
    PairJoin("The AI failed " + "to combine the " + "images. The ", "model did not ", 'f', 'e');
    PairJoin("The AI failed " + "to combine the " + "images. The " + "model did not ", "return a final ", 'f', 'e');
    PairJoin("The AI failed " + "to combine the " + "images. The " + "model did not " + "return a final ", "composite.", 'f', 'e');
    MissingPair(CompositeFailedMessage, "fetch failed", 0);
  }

  lemma CompositeLacksNetwork()
    ensures !Contains(CompositeFailedMessage, "network")
  {
    MissingChar(CompositeFailedMessage, "network", 3);
  }

  /** `CompositeFailedMessage` falls through every test of `handleApiError`. */
  lemma CompositeUnclassifiable()
    ensures Unclassifiable(CompositeFailedMessage)
  {
    CompositeLacksKey();
    CompositeLacksQuota();
    CompositeLacksSafety();
    CompositeLacksBlocked();
    CompositeLacksFetch();
    CompositeLacksNetwork();
  }
}
