/**
 * The adapter to the image-generation API: building the request parts,
 * refusing to start without an API key, and extracting the first inline
 * image of the response as a PNG data URI.
 *
 * The SDK call is a parameter `sdk` that maps a request to what the call
 * returns or throws; the host's key-selection capability is a value.
 */
module GeminiService {
  import opened Wrappers
  import opened JsStrings
  import opened Types

  /** The MIME type every uploaded image is declared with, whatever its real format. */
  const PngMime := "image/png"

  /** The header of every data URI the service returns. */
  const DataUriPrefix := "data:image/png;base64,"

  /**
   * One part of a request: an inline image (whose data may be JavaScript's
   * `undefined`, which the edit path can pass along) or a text prompt.
   */
  datatype Part = InlineData(data: Option<string>, mimeType: string) | TextPart(text: string)

  /** The output format as the SDK receives it: the enumerations' string values. */
  datatype ImageConfig = ImageConfig(aspectRatio: string, imageSize: string)

  /** What `generateContent` is called with: the model's name, the parts and the output format. */
  datatype Request = Request(model: string, parts: seq<Part>, imageConfig: Option<ImageConfig>)

  /** The `inlineData` object of a response part; the SDK declares its `data` optional. */
  datatype InlineBlob = InlineBlob(data: Option<string>)

  /** A part of the response: only whether it carries an inline-data object, and that object, matter here. */
  datatype ResponsePart = ResponsePart(inlineData: Option<InlineBlob>, text: Option<string>)

  datatype Content = Content(parts: Option<seq<ResponsePart>>)

  datatype Candidate = Candidate(content: Option<Content>)

  /** The response, with every field the code reads possibly missing. */
  datatype Response = Response(candidates: Option<seq<Candidate>>)

  /** What the SDK call does: it returns a response or throws. */
  datatype SdkOutcome = Returned(response: Response) | Threw(message: string)

  /** The errors the service functions throw. */
  datatype ServiceError =
    | MissingApiKey          // thrown by createAIClient before any request exists
    | NoImageData            // "No image data found in response"
    | MalformedResponse      // the TypeError of reading `candidates[0].content.parts` off an empty list or a missing content
    | RequestFailed(message: string)  // the SDK call threw; rethrown unchanged

  /** A JavaScript `string | null` is truthy when it is present and non-empty. */
  predicate Truthy(s: Option<string>) {
    s.Some? && s.value != ""
  }

  /** `createAIClient`: the client can be made exactly when the key is non-empty. */
  function CreateAIClient(apiKey: string): (r: Result<(), ServiceError>)
    ensures r.Failure? <==> apiKey == ""
    ensures r.Failure? ==> r.error == MissingApiKey
  {
    if apiKey == "" then Failure(MissingApiKey) else Success(())
  }

  /** The host's key-selection capability: `hasSelectedApiKey` if it exists, and what it answers. */
  datatype Host = Host(hasSelectedApiKey: Option<bool>)

  /** `checkApiKey`: asks the host when it can; a missing host or capability counts as "key present". */
  function CheckApiKey(host: Option<Host>): (hasKey: bool)
    ensures host.None? ==> hasKey
    ensures host.Some? && host.value.hasSelectedApiKey.None? ==> hasKey
    ensures !hasKey <==> host == Some(Host(Some(false)))
  {
    match host
    case Some(Host(Some(answer))) => answer
    case _ => true
  }

  /** The number of the two optional images that are sent. */
  function ImageCount(imageA: Option<string>, imageB: Option<string>): nat {
    (if Truthy(imageA) then 1 else 0) + (if Truthy(imageB) then 1 else 0)
  }

  /** The truthy images, A before B. */
  function SentImages(imageA: Option<string>, imageB: Option<string>): (images: seq<string>)
    ensures |images| == ImageCount(imageA, imageB)
  {
    (if Truthy(imageA) then [imageA.value] else []) + (if Truthy(imageB) then [imageB.value] else [])
  }

  /**
   * The parts of a generation request: one PNG inline part per truthy image,
   * A first, then the prompt as the one and only text part, last.
   */
  function GenerationParts(prompt: string, imageA: Option<string>, imageB: Option<string>): (parts: seq<Part>)
    ensures |parts| == ImageCount(imageA, imageB) + 1
    ensures parts[|parts| - 1] == TextPart(prompt)
    ensures forall k :: 0 <= k < |parts| - 1 ==>
      parts[k] == InlineData(Some(SentImages(imageA, imageB)[k]), PngMime)
  {
    (if Truthy(imageA) then [InlineData(imageA, PngMime)] else [])
    + (if Truthy(imageB) then [InlineData(imageB, PngMime)] else [])
    + [TextPart(prompt)]
  }

  /** The request `generateVSCover` sends: the pro model, the parts and the output format. */
  function GenerationRequest(prompt: string, imageA: Option<string>, imageB: Option<string>,
                             aspectRatio: AspectRatio, resolution: ImageResolution): Request
  {
    Request(ProImage.Value(), GenerationParts(prompt, imageA, imageB),
            Some(ImageConfig(aspectRatio.Value(), resolution.Value())))
  }

  /** The request `editImageWithFlash` sends: the flash model, the source image, then the prompt. */
  function EditRequest(base64Image: Option<string>, prompt: string): (request: Request)
    ensures request.model == FlashImage.Value() && |request.parts| == 2
    ensures request.parts[0].InlineData? && request.parts[0].data == base64Image
    ensures request.parts[0].mimeType == PngMime
    ensures request.parts[1] == TextPart(prompt)
  {
    Request(FlashImage.Value(), [InlineData(base64Image, PngMime), TextPart(prompt)], None)
  }

  /** The inline-data object of the first part that carries one. */
  function FirstInlineData(parts: seq<ResponsePart>): Option<InlineBlob> {
    if parts == [] then None
    else if parts[0].inlineData.Some? then parts[0].inlineData
    else FirstInlineData(parts[1..])
  }

  /** `FirstInlineData` finds `Some(d)` exactly at the first part with inline data. */
  lemma {:induction false} FirstInlineDataFound(parts: seq<ResponsePart>, i: nat)
    requires i < |parts| && parts[i].inlineData.Some?
    requires forall k :: 0 <= k < i ==> parts[k].inlineData.None?
    ensures FirstInlineData(parts) == parts[i].inlineData
    decreases i
  {
    if i > 0 {
      FirstInlineDataFound(parts[1..], i - 1);
    }
  }

  /** `FirstInlineData` is `None` exactly when no part carries inline data. */
  lemma {:induction false} FirstInlineDataAbsent(parts: seq<ResponsePart>)
    ensures FirstInlineData(parts).None? <==> forall k :: 0 <= k < |parts| ==> parts[k].inlineData.None?
    decreases |parts|
  {
    if parts != [] {
      FirstInlineDataAbsent(parts[1..]);
      if parts[0].inlineData.None? {
        assert forall k :: 1 <= k < |parts| ==> parts[k].inlineData == parts[1..][k - 1].inlineData;
      }
    }
  }

  /** Parts after the first image part never change what is extracted. */
  lemma {:induction false} LaterPartsIgnored(parts: seq<ResponsePart>, later: seq<ResponsePart>)
    requires FirstInlineData(parts).Some?
    ensures FirstInlineData(parts + later) == FirstInlineData(parts)
    decreases |parts|
  {
    if parts[0].inlineData.None? {
      assert (parts + later)[1..] == parts[1..] + later;
      LaterPartsIgnored(parts[1..], later);
    }
  }

  /** How the code reads a response: the URI of its first inline image, or the error it throws. */
  function ImageFromResponse(response: Response): Result<string, ServiceError> {
    match response.candidates
    case None => Failure(NoImageData)
    case Some(candidates) =>
      if candidates == [] then Failure(MalformedResponse)
      else match candidates[0].content
        case None => Failure(MalformedResponse)
        case Some(content) =>
          match content.parts
          case None => Failure(NoImageData)
          case Some(parts) =>
            match FirstInlineData(parts)
            case Some(blob) => Success(DataUriPrefix + Interpolated(blob.data))
            case None => Failure(NoImageData)
  }

  /** The outcome of one service call once the client exists: the SDK's error, or the extracted image. */
  function CallResult(outcome: SdkOutcome): Result<string, ServiceError> {
    match outcome
    case Threw(message) => Failure(RequestFailed(message))
    case Returned(response) => ImageFromResponse(response)
  }

  /** The whole of a service call: no client without a key, otherwise the SDK's answer read as above. */
  function ServiceResult(apiKey: string, request: Request, sdk: Request -> SdkOutcome): (r: Result<string, ServiceError>)
    ensures apiKey == "" ==> r == Failure(MissingApiKey)
    ensures r.Success? ==> StartsWith(r.value, DataUriPrefix)
  {
    if apiKey == "" then Failure(MissingApiKey) else CallResult(sdk(request))
  }

  /**
   * A successful call yields the data of the first inline part of the first
   * candidate, behind the PNG header; the call fails with `NoImageData` when
   * there are no candidates or no part carries inline data.
   */
  lemma ServiceResultOfParts(apiKey: string, request: Request, sdk: Request -> SdkOutcome, parts: seq<ResponsePart>)
    requires apiKey != ""
    requires sdk(request).Returned?
    requires var candidates := sdk(request).response.candidates;
      candidates.Some? && candidates.value != [] && candidates.value[0].content == Some(Content(Some(parts)))
    ensures ServiceResult(apiKey, request, sdk).Success? <==> exists k :: 0 <= k < |parts| && parts[k].inlineData.Some?
    ensures forall i ::
      (0 <= i < |parts| && parts[i].inlineData.Some? && forall k :: 0 <= k < i ==> parts[k].inlineData.None?)
      ==> ServiceResult(apiKey, request, sdk) == Success(DataUriPrefix + Interpolated(parts[i].inlineData.value.data))
    ensures ServiceResult(apiKey, request, sdk).Failure? ==> ServiceResult(apiKey, request, sdk).error == NoImageData
  {
    FirstInlineDataAbsent(parts);
    forall i | 0 <= i < |parts| && parts[i].inlineData.Some? && (forall k :: 0 <= k < i ==> parts[k].inlineData.None?)
      ensures ServiceResult(apiKey, request, sdk) == Success(DataUriPrefix + Interpolated(parts[i].inlineData.value.data))
    {
      FirstInlineDataFound(parts, i);
    }
  }

  /** The payload of a returned URI is recovered by splitting at its one comma. */
  lemma PayloadOfReturnedUri(data: string)
    requires ',' !in data
    ensures SecondField(DataUriPrefix + data, ',') == Some(data)
  {
    assert DataUriPrefix == "data:image/png;base64" + ",";
    assert ',' !in "data:image/png;base64";
    SecondFieldOfPair("data:image/png;base64", data, ',');
  }

  /**
   * An inline-data object without `data` still ends the search: the call
   * succeeds with the text "undefined" as its payload.
   */
  lemma MissingDataRendersUndefined(parts: seq<ResponsePart>, i: nat)
    requires i < |parts| && parts[i].inlineData == Some(InlineBlob(None))
    requires forall k :: 0 <= k < i ==> parts[k].inlineData.None?
    ensures ImageFromResponse(Response(Some([Candidate(Some(Content(Some(parts))))])))
      == Success(DataUriPrefix + "undefined")
  {
    FirstInlineDataFound(parts, i);
  }

  /** The response-reading loop shared by both service functions: the first part with inline data wins. */
  method ExtractImageUri(response: Response) returns (r: Result<string, ServiceError>)
    ensures r == ImageFromResponse(response)
  {
    if response.candidates.Some? {
      var candidates := response.candidates.value;
      if candidates == [] || candidates[0].content.None? {
        return Failure(MalformedResponse);
      }
      var content := candidates[0].content.value;
      if content.parts.Some? {
        var parts := content.parts.value;
        var i := 0;
        while i < |parts|
          invariant 0 <= i <= |parts|
          invariant FirstInlineData(parts[i..]) == FirstInlineData(parts)
        {
          if parts[i].inlineData.Some? {
            return Success(DataUriPrefix + Interpolated(parts[i].inlineData.value.data));
          }
          assert parts[i..][1..] == parts[i + 1..];
          i := i + 1;
        }
      }
    }
    return Failure(NoImageData);
  }

  /** The parts array `generateVSCover` fills by successive pushes: image A, image B, then the prompt. */
  method PushGenerationParts(prompt: string, imageA: Option<string>, imageB: Option<string>) returns (parts: seq<Part>)
    ensures parts == GenerationParts(prompt, imageA, imageB)
  {
    parts := [];
    if Truthy(imageA) {
      parts := parts + [InlineData(imageA, PngMime)];
    }
    if Truthy(imageB) {
      parts := parts + [InlineData(imageB, PngMime)];
    }
    parts := parts + [TextPart(prompt)];
  }

  /** The `try` block both service functions share: the SDK's exception is rethrown, a response is read. */
  method CallSdk(request: Request, sdk: Request -> SdkOutcome) returns (r: Result<string, ServiceError>)
    ensures r == CallResult(sdk(request))
  {
    match sdk(request)
    case Threw(message) =>
      r := Failure(RequestFailed(message));
    case Returned(response) =>
      r := ExtractImageUri(response);
  }

  /**
   * `generateVSCover`: without a key nothing is sent; otherwise exactly the
   * generation request is sent and its answer is read by `ImageFromResponse`.
   */
  method GenerateVSCover(apiKey: string, prompt: string, imageA: Option<string>, imageB: Option<string>,
                         aspectRatio: AspectRatio, resolution: ImageResolution, sdk: Request -> SdkOutcome)
    returns (r: Result<string, ServiceError>, sent: Option<Request>)
    ensures apiKey == "" <==> sent.None?
    ensures sent.Some? ==> sent.value == GenerationRequest(prompt, imageA, imageB, aspectRatio, resolution)
    ensures r == ServiceResult(apiKey, GenerationRequest(prompt, imageA, imageB, aspectRatio, resolution), sdk)
  {
    var client := CreateAIClient(apiKey);
    if client.Failure? {
      return Failure(client.error), None;
    }
    var parts := PushGenerationParts(prompt, imageA, imageB);
    var request := Request(ProImage.Value(), parts, Some(ImageConfig(aspectRatio.Value(), resolution.Value())));
    sent := Some(request);
    r := CallSdk(request, sdk);
  }

  /**
   * `editImageWithFlash`: without a key nothing is sent; otherwise exactly
   * the two-part edit request is sent and its answer read as for generation.
   */
  method EditImageWithFlash(apiKey: string, base64Image: Option<string>, prompt: string, sdk: Request -> SdkOutcome)
    returns (r: Result<string, ServiceError>, sent: Option<Request>)
    ensures apiKey == "" <==> sent.None?
    ensures sent.Some? ==> sent.value == EditRequest(base64Image, prompt)
    ensures r == ServiceResult(apiKey, EditRequest(base64Image, prompt), sdk)
  {
    var client := CreateAIClient(apiKey);
    if client.Failure? {
      return Failure(client.error), None;
    }
    var request := Request(FlashImage.Value(), [InlineData(base64Image, PngMime), TextPart(prompt)], None);
    sent := Some(request);
    r := CallSdk(request, sdk);
  }
}
