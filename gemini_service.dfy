/**
 * The three operations of the generation service: background removal,
 * background generation and compositing. Each builds one request, sends it to
 * the remote model once, checks the answer, and turns every failure, thrown
 * by the remote call or by its own checks, into the message `handleApiError`
 * throws.
 *
 * The remote model is `GenAiModels`: it records every request it is sent and
 * answers through two functions fixed when it is created, so that the
 * operations are verified for every possible answer, failures included.
 */
module GeminiService {
  import opened Wrappers
  import opened Text
  import opened ApiErrors
  import opened Responses
  import opened ServiceFailures
  import PromptBuilder

  /** The aspect ratios a background can be generated at. */
  datatype AspectRatio = Ratio16x9 | Ratio9x16 | Ratio1x1 | Ratio4x3 | Ratio3x4

  /**
   * The fixed instruction that accompanies the images of a content request:
   * segmenting the subject onto a transparent background, or the long
   * compositing brief.
   */
  datatype Instruction = SegmentSubject | CompositeOntoBackground

  /** A `generateContent` request: the model, the images in order, and the instruction that follows them. */
  datatype ContentRequest = ContentRequest(model: string, images: seq<ImageData>, instruction: Instruction)

  /** A `generateImages` request. */
  datatype ImagesRequest =
    ImagesRequest(model: string, prompt: string, numberOfImages: int, outputMimeType: string, aspectRatio: AspectRatio)

  datatype Request = ContentCall(content: ContentRequest) | ImagesCall(images: ImagesRequest)

  /** What a remote call does: return a response or throw. */
  datatype Reply<T> = Returned(response: T) | Threw(error: Thrown)

  const ImageEditModel := "gemini-2.5-flash-image-preview"
  const ImageGenerationModel := "imagen-4.0-generate-001"

  /** The remote model (`ai.models`). */
  class GenAiModels {
    /** Every request sent so far, oldest first. */
    var sent: seq<Request>

    /** How the remote answers a content request. */
    const answerContent: ContentRequest -> Reply<ContentResponse>

    /** How the remote answers an image-generation request. */
    const answerImages: ImagesRequest -> Reply<ImagesResponse>

    constructor (answerContent: ContentRequest -> Reply<ContentResponse>, answerImages: ImagesRequest -> Reply<ImagesResponse>)
      ensures sent == []
      ensures this.answerContent == answerContent && this.answerImages == answerImages
    {
      sent := [];
      this.answerContent := answerContent;
      this.answerImages := answerImages;
    }

    method GenerateContent(request: ContentRequest) returns (reply: Reply<ContentResponse>)
      modifies this
      ensures sent == old(sent) + [ContentCall(request)]
      ensures reply == answerContent(request)
    {
      sent := sent + [ContentCall(request)];
      reply := answerContent(request);
    }

    method GenerateImages(request: ImagesRequest) returns (reply: Reply<ImagesResponse>)
      modifies this
      ensures sent == old(sent) + [ImagesCall(request)]
      ensures reply == answerImages(request)
    {
      sent := sent + [ImagesCall(request)];
      reply := answerImages(request);
    }
  }

  /** The request `removeBackground` sends. */
  function SegmentationRequest(image: ImageData): ContentRequest
  {
    ContentRequest(ImageEditModel, [image], SegmentSubject)
  }

  /** The request `generateBackground` sends, with the custom subject inserted literally into the prompt. */
  function BackgroundRequest(styleKeywords: string, aspectRatio: AspectRatio, customSubject: string, batchSize: int): ImagesRequest
  {
    ImagesRequest(ImageGenerationModel, PromptBuilder.BuildPrompt(styleKeywords, customSubject, batchSize),
      batchSize, JpegType, aspectRatio)
  }

  /** The request `compositeImages` sends. */
  function CompositeRequest(foreground: ImageData, background: ImageData): ContentRequest
  {
    ContentRequest(ImageEditModel, [foreground, background], CompositeOntoBackground)
  }

  /**
   * `removeBackground`: one content request with the image; the first inline
   * image of the answer is the result. A thrown error is classified; an answer
   * without an image fails as an unexpected error.
   */
  method RemoveBackground(ai: GenAiModels, image: ImageData) returns (r: Result<ImageData, string>)
    modifies ai
    ensures ai.sent == old(ai.sent) + [ContentCall(SegmentationRequest(image))]
    ensures match ai.answerContent(SegmentationRequest(image))
      case Threw(e) => r == Failure(HandleApiError(e, "background removal"))
      case Returned(response) =>
        match GetImagePart(response)
        case Some(result) => r == Success(result)
        case None => r == Failure(Message(Unexpected, "background removal"))
  {
    var reply := ai.GenerateContent(SegmentationRequest(image));
    match reply
    case Threw(e) =>
      r := Failure(HandleApiError(e, "background removal"));
    case Returned(response) =>
      var result := GetImagePart(response);
      if result.None? {
        RemovalUnclassifiable();
        UnclassifiableIsUnexpected(RemovalFailedMessage, "background removal");
        r := Failure(HandleApiError(ErrorObject(RemovalFailedMessage), "background removal"));
      } else {
        r := Success(result.value);
      }
  }

  /**
   * `generateBackground`: one image-generation request carrying the built
   * prompt, the batch size as the number of images, JPEG output and the aspect
   * ratio; the answer is validated all or nothing. The validation's errors go
   * through `handleApiError` like any other and, matching none of its tests,
   * reach the user as an unexpected error.
   */
  method GenerateBackground(ai: GenAiModels, styleKeywords: string, aspectRatio: AspectRatio, customSubject: string, batchSize: int)
    returns (r: Result<seq<ImageData>, string>)
    modifies ai
    ensures ai.sent == old(ai.sent) + [ImagesCall(BackgroundRequest(styleKeywords, aspectRatio, customSubject, batchSize))]
    ensures match ai.answerImages(BackgroundRequest(styleKeywords, aspectRatio, customSubject, batchSize))
      case Threw(e) => r == Failure(HandleApiError(e, "background generation"))
      case Returned(response) =>
        match ValidateImages(response)
        case Success(images) => r == Success(images)
        case Failure(_) => r == Failure(Message(Unexpected, "background generation"))
    ensures r.Success? ==> |r.value| > 0 && forall i :: 0 <= i < |r.value| ==> r.value[i].mimeType == JpegType
  {
    var request := BackgroundRequest(styleKeywords, aspectRatio, customSubject, batchSize);
    var reply := ai.GenerateImages(request);
    match reply
    case Threw(e) =>
      r := Failure(HandleApiError(e, "background generation"));
    case Returned(response) =>
      var images := ValidateImages(response);
      match images
      case Success(list) =>
        r := Success(list);
      case Failure(message) =>
        NoImagesUnclassifiable();
        EmptyImageUnclassifiable();
        UnclassifiableIsUnexpected(message, "background generation");
        r := Failure(HandleApiError(ErrorObject(message), "background generation"));
  }

  /**
   * `compositeImages`: one content request with the foreground, then the
   * background, then the compositing brief; the first inline image of the
   * answer is the result. A thrown error is classified; an answer without an
   * image fails as an unexpected error.
   */
  method CompositeImages(ai: GenAiModels, foreground: ImageData, background: ImageData) returns (r: Result<ImageData, string>)
    modifies ai
    ensures ai.sent == old(ai.sent) + [ContentCall(CompositeRequest(foreground, background))]
    ensures match ai.answerContent(CompositeRequest(foreground, background))
      case Threw(e) => r == Failure(HandleApiError(e, "image composition"))
      case Returned(response) =>
        match GetImagePart(response)
        case Some(result) => r == Success(result)
        case None => r == Failure(Message(Unexpected, "image composition"))
  {
    var reply := ai.GenerateContent(CompositeRequest(foreground, background));
    match reply
    case Threw(e) =>
      r := Failure(HandleApiError(e, "image composition"));
    case Returned(response) =>
      var result := GetImagePart(response);
      if result.None? {
        CompositeUnclassifiable();
        UnclassifiableIsUnexpected(CompositeFailedMessage, "image composition");
        r := Failure(HandleApiError(ErrorObject(CompositeFailedMessage), "image composition"));
      } else {
        r := Success(result.value);
      }
  }
}
