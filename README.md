# AI Background Changer: generation service in Dafny

This project models the generation service of the AI Background Changer
(`services/geminiService.ts`). The service does three things:

- **`removeBackground`** asks an image-editing model to cut the subject out of a photo.
- **`generateBackground`** builds a text prompt from an art style's keywords, the
  user's optional custom subject and the batch size. It then asks an
  image-generation model for that many backgrounds.
- **`compositeImages`** asks the image-editing model to place the cut-out subject
  onto a generated background.

Every failure goes through `handleApiError`. It turns the error into one
user-facing message by testing the error's message for substrings in a fixed
order.

The modules follow the parts of the service:

- `Text` covers the JavaScript string operations used: `includes`, `endsWith`,
  and the line terminators of ECMAScript.
- `SubjectPattern` writes out the regular expression
  `/( of a | of an | of )(.+?)( with |, in the style of |, featuring |, and |, composed of|\.)/`
  as the search a backtracking ECMAScript engine performs. It also says
  declaratively what a match is (`IsMatch`) and in which order the engine tries
  candidates (`Before`). `FindSubject` is proved to return exactly the first
  match in that order.
- `Replacement` is the `$`-pattern expansion `String.prototype.replace` applies
  to its replacement string (GetSubstitution, section 22.1.3.19.1 of ECMA-262,
  2024 edition).
- `PromptBuilder` is the prompt assembly of `generateBackground`.
  - `BuildPrompt` inserts the subject literally.
  - `BuildPromptAsWritten` passes it through `replace` as the source does (see
    Findings).
- `ApiErrors` is `handleApiError`: the classification and the messages.
- `ServiceFailures` holds the texts of the errors the service throws itself
  and proves that none of them contains a text `handleApiError` looks for.
- `Responses` covers the response shapes, `getImagePartFromResponse`, and the
  all-or-nothing conversion of generated images.
- `GeminiService` holds the three operations, as methods over the remote model.
  The remote model is a class, `GenAiModels`: it records every request it is
  sent and answers through two functions fixed when it is created.
- `StyleExamples` applies the pattern and the prompt builder to the keywords of
  four art styles from `constants.ts`, and to two further templates.

Some facts about the code that a reader might not expect:

- **Terminators.** The first terminator is " with " with no comma, and
  ", composed of" has no trailing space.
- **The connective is kept.** For the template "A painting of a forest with
  autumn leaves." and the subject "a lighthouse", the result is "A painting of
  a a lighthouse with autumn leaves." (`StyleExamples.ForestPrompt`).
- **The batch separator.** It only tests whether the prompt ends with a
  period.
- **Number of images.** The number of images returned is never compared with
  `batchSize`; only an empty list is rejected.

## Model

| member | source | states |
|---|---|---|
| Text.Contains | services/geminiService.ts:14-20 | `includes` holds exactly when some index of the message starts an occurrence of the searched text |
| Text.EndsWith | services/geminiService.ts:108 | `endsWith` (here and at line 98) holds exactly when the text is some text followed by the suffix |
| SubjectPattern.TerminatorAt | services/geminiService.ts:90 | the terminator found at a position is one that occurs there, and no terminator written earlier occurs there |
| SubjectPattern.LazySubject | services/geminiService.ts:90 | the lazy group takes the shortest subject, of at least one character and with no line terminator, that is followed by a terminator; no match with the same start and connective comes before it |
| SubjectPattern.ConnectiveAt | services/geminiService.ts:90 | at a fixed start, connectives are tried in written order; the result is a match and no match at that start comes before it |
| SubjectPattern.SearchFrom | services/geminiService.ts:90 | start positions are tried left to right; the result is a match and no match from that start on comes before it |
| SubjectPattern.FindSubject | services/geminiService.ts:90-94 | `test` succeeds exactly when some match exists, and the match found is one that no other match precedes in the engine's order |
| SubjectPattern.FirstMatchFound | services/geminiService.ts:90-94 | any match that no other match precedes is the one found, so the first match is unique |
| SubjectPattern.MatchSplitsText | services/geminiService.ts:90-94 | a match splits the text into before, connective, subject, terminator and after, which rejoin to the text |
| SubjectPattern.MatchBeginsWithOf | services/geminiService.ts:90 | every match begins with " of" |
| SubjectPattern.TerminatorStart | services/geminiService.ts:90 | a terminator can begin only at a period, at a space before `w`, or at a comma and space before `i`, `f`, `a` or `c` |
| SubjectPattern.FirstMatchByChars | services/geminiService.ts:90 | a match is the one found when there is no earlier " of", no earlier connective at its start, no terminator inside its subject and no earlier terminator after it |
| SubjectPattern.NoMatchWithoutOf | services/geminiService.ts:90-92 | a text without " of" does not match, so the fallback is taken |
| Replacement.Substitute | services/geminiService.ts:94 | a replacement string without `$` is inserted unchanged |
| Replacement.GroupTemplate | services/geminiService.ts:94 | the template `$1` + subject + `$3` yields the connective, the subject and the terminator when the subject has no `$`, even if it begins with a digit |
| Replacement.DollarCollapses | services/geminiService.ts:94 | a `$$` in the subject comes out as a single `$` |
| PromptBuilder.FallbackPrompt | services/geminiService.ts:95-99 | the keywords come first, followed by a period only when they do not already end with one, then " The scene should feature ", the subject and a period |
| PromptBuilder.SubjectPrompt | services/geminiService.ts:88-104 | defines the prompt before the batch instruction with the subject inserted literally: the keywords when there is no subject, the first match replaced when there is one, the fallback sentence otherwise; its properties are stated by `ReplacesFirstMatch`, `AppendsWhenNoMatch` and `SubjectReachesPrompt` |
| PromptBuilder.SubjectPromptAsWritten | services/geminiService.ts:88-104 | defines the same prompt as the source computes it, the replacement template `$1` + subject + `$3` going through `replace`'s `$` patterns; `AsWrittenAgrees` relates it to `SubjectPrompt` |
| PromptBuilder.WithBatchInstruction | services/geminiService.ts:106-110 | defines the batch step: for more than one image, a separator chosen by the final period and the diversity sentence; its properties are stated by `BatchInstruction` |
| PromptBuilder.Splice | services/geminiService.ts:94 | replacing a match keeps the text before and after it and puts the inserted text in its place |
| PromptBuilder.BuildPromptAsWritten | services/geminiService.ts:85-110 | defines the prompt exactly as the source builds it, `$` expansion included; `AsWrittenAgrees` shows it equals `BuildPrompt` for a subject without `$`, and `StyleExamples.DollarSubjectAltered` shows an input where they differ |
| PromptBuilder.BuildPrompt | services/geminiService.ts:85-110 | with no subject and at most one image, the prompt is the keywords; in every case the prompt before the batch instruction is a prefix of the final prompt |
| PromptBuilder.ReplacesFirstMatch | services/geminiService.ts:88-94 | with a subject, the first match is replaced by connective, subject and terminator; the text before and after the match, later matches included, is unchanged |
| PromptBuilder.AppendsWhenNoMatch | services/geminiService.ts:95-99 | with a subject and no match anywhere, the prompt is the fallback sentence |
| PromptBuilder.BatchInstruction | services/geminiService.ts:106-110 | nothing is appended for one image or fewer; for more, the prompt is kept as a prefix and is followed by exactly one diversity sentence; the separator is one space after a final period and ". " otherwise |
| PromptBuilder.BatchSizeBeyondOneIrrelevant | services/geminiService.ts:106-110 | every batch size above one gives the same prompt |
| PromptBuilder.SubjectReachesPrompt | services/geminiService.ts:88-110 | a non-empty subject always occurs in the final prompt |
| PromptBuilder.AsWrittenAgrees | services/geminiService.ts:94 | for a subject without `$`, the source's `replace` gives the same prompt as literal insertion |
| ApiErrors.Message | services/geminiService.ts:11-24 | defines the six user-facing texts, three of them naming the operation; `MessagesDistinct` and `ContextReported` state their properties |
| ApiErrors.HandleApiError | services/geminiService.ts:10-29 | defines the message of the thrown error as the text of the kind `Classify` picks; `MessagesDistinct` shows the kind can be read back from it |
| ApiErrors.Classify | services/geminiService.ts:10-26 | a non-Error value is unknown; an Error is classified by the first test that succeeds, in the order invalid key, quota, safety or blocked, fetch failed or network, otherwise unexpected; each kind holds exactly under its condition |
| ApiErrors.MessagesDistinct | services/geminiService.ts:11-25 | different kinds of failure never produce the same message, whatever the operation |
| ApiErrors.ContextReported | services/geminiService.ts:11-25 | the unknown, safety and unexpected messages contain the operation's name; the other messages do not depend on it |
| Responses.FirstCandidateParts | services/geminiService.ts:42 | defines the optional chain `candidates?.[0]?.content?.parts`: nothing when there is no candidate, no content or no parts |
| Responses.FirstInlinePart | services/geminiService.ts:42 | `find` returns the first part with inline data, or none when no part has it |
| Responses.GetImagePart | services/geminiService.ts:41-50 | an image is returned exactly when the first candidate has a part with inline data; it is the data and media type of the first such part |
| Responses.HasBytes | services/geminiService.ts:129 | defines the test an entry must pass: it has an image whose bytes are present and non-empty |
| Responses.ConvertImages | services/geminiService.ts:128-136 | all entries are converted or none: success exactly when every entry has image bytes; then the list has the same length and order, every entry as JPEG; otherwise the empty-image error |
| Responses.ValidateImages | services/geminiService.ts:123-136 | success exactly when the list is present, non-empty and every entry has bytes; then the images come one for one, in order, as JPEG; a missing or empty list gives the no-images error, and otherwise the empty-image error |
| GeminiService.SegmentationRequest | services/geminiService.ts:54-72 | defines the removal request: the image-editing model, the one image, then the segmentation instruction |
| GeminiService.BackgroundRequest | services/geminiService.ts:113-121 | defines the generation request: the image-generation model, the prompt with the subject inserted literally, the batch size as number of images, JPEG output and the aspect ratio |
| GeminiService.CompositeRequest | services/geminiService.ts:144-200 | defines the compositing request: the image-editing model, the foreground, then the background, then the compositing instruction |
| GeminiService.GenAiModels.constructor | services/geminiService.ts:8 | the client starts with nothing sent |
| GeminiService.GenAiModels.GenerateContent | services/geminiService.ts:54-72 | the request is recorded after the earlier ones and the reply is the remote answer to it |
| GeminiService.GenAiModels.GenerateImages | services/geminiService.ts:113-121 | the request is recorded after the earlier ones and the reply is the remote answer to it |
| GeminiService.RemoveBackground | services/geminiService.ts:52-82 | exactly one segmentation request with the image is sent; the result is the first inline image of the answer; a thrown error is classified with context "background removal"; an answer without an image gives the unexpected-error message of "background removal" |
| GeminiService.GenerateBackground | services/geminiService.ts:84-139 | exactly one request is sent: the built prompt, with the subject inserted literally, the batch size as number of images, JPEG output and the aspect ratio; the result is the validated images, non-empty and all JPEG; a thrown error is classified with context "background generation"; a missing or empty image list, or an entry without bytes, gives the unexpected-error message of "background generation" |
| GeminiService.CompositeImages | services/geminiService.ts:142-209 | exactly one request is sent, with the foreground, then the background, then the compositing instruction; the result is the first inline image; a thrown error is classified with context "image composition"; an answer without an image gives the unexpected-error message of "image composition" |
| ApiErrors.UnclassifiableIsUnexpected | services/geminiService.ts:23-25 | an error whose message contains none of the texts it looks for yields the unexpected-error message of its operation |
| ServiceFailures.RemovalUnclassifiable | services/geminiService.ts:76 | the text thrown when removal returns no image contains none of the texts `handleApiError` looks for |
| ServiceFailures.NoImagesUnclassifiable | services/geminiService.ts:125 | the text thrown when generation returns no images contains none of the texts `handleApiError` looks for |
| ServiceFailures.EmptyImageUnclassifiable | services/geminiService.ts:130 | the text thrown for a generated entry without bytes contains none of the texts `handleApiError` looks for |
| ServiceFailures.CompositeUnclassifiable | services/geminiService.ts:204 | the text thrown when compositing returns no image contains none of the texts `handleApiError` looks for |
| StyleExamples.FirstMatchOfPieces | services/geminiService.ts:90 | for a text written as lead, connective, subject, terminator and rest, checks on the pieces alone are enough to show that this is the match found |
| StyleExamples.PromptOfPieces | services/geminiService.ts:88-94 | where that first match is known, the prompt for one image is the lead, the connective, the custom subject, the terminator and the rest |
| StyleExamples.ImpressionismMatch | constants.ts:8 | the match is " of a " + "serene landscape" + " with " |
| StyleExamples.PostImpressionismMatch | constants.ts:15 | the match is " of " + "Van Gogh's Starry Night," + " with ": the comma is part of the subject |
| StyleExamples.UkiyoeMatch | constants.ts:71 | the match is " of a " + "wave and Mount Fuji" + ", in the style of " |
| StyleExamples.ExpressionismNoMatch | constants.ts:22 | the pattern does not match |
| StyleExamples.ImpressionismPrompt | constants.ts:8 | any custom subject takes the place of "serene landscape", and the rest of the keywords is kept |
| StyleExamples.ExpressionismPrompt | constants.ts:22 | the subject is named in an appended sentence, with no extra period |
| StyleExamples.ForestPrompt | services/geminiService.ts:90-94 | "A painting of a forest with autumn leaves." with "a lighthouse" gives "A painting of a a lighthouse with autumn leaves." |
| StyleExamples.SwirlingColorsNoMatch | services/geminiService.ts:90-92 | "Abstract swirling colors." has no match |
| StyleExamples.NoConnectivePrompt | services/geminiService.ts:95-99 | "Abstract swirling colors." with "a cat" gives "Abstract swirling colors. The scene should feature a cat." |
| StyleExamples.DollarSubjectAltered | services/geminiService.ts:94 | with the Impressionism keywords and the subject `$$`, the source's prompt is the keywords with " of a " + "$" + " with " where "serene landscape" was, while the prompt with the subject inserted literally has " of a " + "$$" + " with " |

## Left out

- The module-load check for the API key (services/geminiService.ts:4-8) and
  the client's construction are configuration. The remote model is a
  parameter of the operations.
- The remote calls are deterministic. `GenAiModels` answers each request
  through a function fixed at construction, so two identical requests get
  the same answer. Networking, `await` and timing are not modelled.
- Logging with `console.error` (services/geminiService.ts:27) is not
  modelled. `handleApiError` is modelled as returning the message of the
  error it throws.
- `fileToBase64` (services/geminiService.ts:32-39) is not modelled. It is
  browser file I/O.
- The instruction texts are tags, `SegmentSubject` and
  `CompositeOntoBackground`: the segmentation text
  (services/geminiService.ts:65) and the compositing brief
  (services/geminiService.ts:161-193). The `responseModalities` settings
  (services/geminiService.ts:69-71, 197-199) are left out of the requests.
  They are constants with no behaviour in the service.
- Responses.GetImagePart: the inline data's `data` and `mimeType` are
  strings that are always present. In the source's types they may be
  undefined, and such a value would be passed on as is.
- GeminiService.GenerateBackground: the request carries the prompt with the
  custom subject inserted literally (`PromptBuilder.BuildPrompt`), the
  corrected behaviour of the Finding below. The source sends the prompt its
  `replace` call produces (`PromptBuilder.BuildPromptAsWritten`), which
  differs only when the subject contains `$`; `PromptBuilder.AsWrittenAgrees`
  shows the two are equal otherwise.
- GeminiService.GenerateBackground: `batchSize` is an integer. A JavaScript
  number that is NaN or fractional is not modelled. The source never checks
  the number of images returned against it, and neither does the model.
- Text.Contains: strings are sequences of Unicode characters. JavaScript
  strings are UTF-16 code units, so the model does not capture `.`
  matching half of a surrogate pair.
- `App.tsx` and the components under `components/` are not part of this
  model: they are React rendering, webcam capture and file input. The
  orchestration in `App.tsx` calls `generateBackground` with two arguments
  and passes its array result on as a single image, so it is not taken as
  the pipeline's definition. `constants.ts` and `types.ts` are data. Their
  keywords are used as examples, and `AspectRatio` is a five-value datatype
  passed through unchanged.

## Findings

| source | as written | input that shows it | evidently intended | confidence | as-written member | corrected member |
|---|---|---|---|---|---|---|
| services/geminiService.ts:94 | the custom subject is pasted into the replacement string of `replace`, so `$$`, `$&`, `` $` ``, `$'` and `$n` in the subject are expanded as patterns | the Impressionism keywords (constants.ts:8) with custom subject `$$`: the prompt carries `$` instead of `$$` | the subject is inserted literally, as the fallback sentence inserts it | high that the expansion happens (ECMA-262 GetSubstitution); not executed | PromptBuilder.BuildPromptAsWritten, StyleExamples.DollarSubjectAltered | PromptBuilder.BuildPrompt, PromptBuilder.AsWrittenAgrees, PromptBuilder.SubjectReachesPrompt |
