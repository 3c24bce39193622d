/**
 * What the service takes from the remote model's answers: the first inline
 * image of a content response (`getImagePartFromResponse`), and the list of
 * generated images of an image response, which is accepted only if every
 * entry carries image bytes.
 *
 * The responses are plain values; every field the source reads through `?.`
 * or tests for truthiness is an `Option`.
 */
module Responses {
  import opened Wrappers
  import opened ServiceFailures

  /** An image as the service passes it around: base64 data and a media type. */
  datatype ImageData = ImageData(base64: string, mimeType: string)

  /** Inline binary data in a response part. */
  datatype Blob = Blob(data: string, mimeType: string)

  datatype Part = Part(inlineData: Option<Blob>, text: Option<string>)

  datatype Content = Content(parts: Option<seq<Part>>)

  datatype Candidate = Candidate(content: Option<Content>)

  /** The answer to a `generateContent` call. */
  datatype ContentResponse = ContentResponse(candidates: Option<seq<Candidate>>)

  /** `response.candidates?.[0]?.content?.parts`: only the first candidate is looked at. */
  function FirstCandidateParts(response: ContentResponse): Option<seq<Part>>
  {
    match response.candidates
    case None => None
    case Some(cs) =>
      if |cs| == 0 then None
      else
        match cs[0].content
        case None => None
        case Some(content) => content.parts
  }

  /** `parts.find(part => part.inlineData)`, as an index: the first part, from `from` on, with inline data. */
  function FirstInlinePart(parts: seq<Part>, from: nat): (r: Option<nat>)
    decreases |parts| - from
    ensures r.Some? ==> from <= r.value < |parts| && parts[r.value].inlineData.Some?
    ensures r.Some? ==> forall j :: from <= j < r.value ==> parts[j].inlineData.None?
    ensures r.None? ==> forall j :: from <= j < |parts| ==> parts[j].inlineData.None?
  {
    if from >= |parts| then None
    else if parts[from].inlineData.Some? then Some(from)
    else FirstInlinePart(parts, from + 1)
  }

  /**
   * `getImagePartFromResponse`: the data and media type of the first part of
   * the first candidate that has inline data, or nothing when there is no
   * candidate, no content, no parts or no such part.
   */
  function GetImagePart(response: ContentResponse): (r: Option<ImageData>)
    ensures r.Some? <==>
      FirstCandidateParts(response).Some? &&
      exists k :: 0 <= k < |FirstCandidateParts(response).value| && FirstCandidateParts(response).value[k].inlineData.Some?
    ensures r.Some? ==>
      var parts := FirstCandidateParts(response).value;
      exists k :: 0 <= k < |parts| && parts[k].inlineData == Some(Blob(r.value.base64, r.value.mimeType)) &&
        forall j :: 0 <= j < k ==> parts[j].inlineData.None?
  {
    match FirstCandidateParts(response)
    case None => None
    case Some(parts) =>
      match FirstInlinePart(parts, 0)
      case None => None
      case Some(k) =>
        var blob := parts[k].inlineData.value;
        Some(ImageData(blob.data, blob.mimeType))
  }

  /** The image of one generated entry. */
  datatype Image = Image(imageBytes: Option<string>)

  datatype GeneratedImage = GeneratedImage(image: Option<Image>)

  /** The answer to a `generateImages` call. */
  datatype ImagesResponse = ImagesResponse(generatedImages: Option<seq<GeneratedImage>>)

  /** `img.image && img.image.imageBytes`: the entry has an image whose bytes are present and not empty. */
  predicate HasBytes(g: GeneratedImage)
  {
    g.image.Some? && g.image.value.imageBytes.Some? && g.image.value.imageBytes.value != ""
  }

  function BytesOf(g: GeneratedImage): string
    requires HasBytes(g)
  {
    g.image.value.imageBytes.value
  }

  /** The media type the service declares for every generated image. */
  const JpegType := "image/jpeg"

  /**
   * `generatedImages.map(…)`: each entry becomes JPEG image data, and the first
   * entry without bytes throws, so that either every entry is converted or
   * nothing is.
   */
  function ConvertImages(images: seq<GeneratedImage>): (r: Result<seq<ImageData>, string>)
    ensures r.Success? <==> forall i :: 0 <= i < |images| ==> HasBytes(images[i])
    ensures r.Success? ==>
      |r.value| == |images| &&
      forall i :: 0 <= i < |images| ==> HasBytes(images[i]) && r.value[i] == ImageData(BytesOf(images[i]), JpegType)
    ensures r.Failure? ==> r.error == EmptyImageMessage
  {
    if images == [] then Success([])
    else if !HasBytes(images[0]) then Failure(EmptyImageMessage)
    else
      match ConvertImages(images[1..])
      case Success(rest) =>
        assert forall i :: 1 <= i < |images| ==> images[i] == images[1..][i - 1];
        Success([ImageData(BytesOf(images[0]), JpegType)] + rest)
      case Failure(e) =>
        assert exists i :: 1 <= i < |images| && !HasBytes(images[i]) by {
          var i :| 0 <= i < |images[1..]| && !HasBytes(images[1..][i]);
          assert images[i + 1] == images[1..][i];
        }
        Failure(e)
  }

  /**
   * The check and conversion of an image response: a missing or empty list of
   * images fails, any entry without bytes fails the whole response, and
   * otherwise the images come back in the order given, one for one, each as JPEG.
   * The number of images is not compared with the number requested.
   */
  function ValidateImages(response: ImagesResponse): (r: Result<seq<ImageData>, string>)
    ensures r.Success? <==>
      response.generatedImages.Some? && |response.generatedImages.value| > 0 &&
      forall i :: 0 <= i < |response.generatedImages.value| ==> HasBytes(response.generatedImages.value[i])
    ensures r.Success? ==>
      var images := response.generatedImages.value;
      |r.value| == |images| &&
      forall i :: 0 <= i < |images| ==> r.value[i] == ImageData(BytesOf(images[i]), JpegType)
    ensures r.Failure? ==>
      r.error == if response.generatedImages.None? || |response.generatedImages.value| == 0
                 then NoImagesMessage else EmptyImageMessage
  {
    match response.generatedImages
    case None => Failure(NoImagesMessage)
    case Some(images) => if |images| == 0 then Failure(NoImagesMessage) else ConvertImages(images)
  }
}
