/**
 * The decision logic of the service layer (services/geminiService.ts):
 * which model, tools, configuration and parts each request carries, and
 * which value each response yields. The remote calls themselves are not
 * modelled; a request is the value that would be sent.
 */
module GeminiService {
  import opened Wrappers
  import opened Types
  import opened JsStrings

  /** The MIME type every inline image is sent with. */
  const JpegMime: string := "image/jpeg"

  /** A content part of a request. */
  datatype Part = TextPart(text: string) | InlineDataPart(mimeType: string, data: string)

  /** One entry of chat history as the chat panel builds it. */
  datatype HistoryEntry = HistoryEntry(role: Role, parts: seq<Part>)

  // ----- Chat -----

  const ChatFlashModel: string := "gemini-2.5-flash"
  const ChatProModel: string := "gemini-3-pro-preview"

  /** The thinking budget a thinking request asks for. */
  const ThinkingBudget: nat := 32768

  /** A geographic position. */
  datatype LatLng = LatLng(latitude: real, longitude: real)

  /** The chat switches; absent flags are `false`. */
  datatype ChatOptions = ChatOptions(useThinking: bool, useSearch: bool, useMaps: bool, useCode: bool,
                                     location: Option<LatLng>)

  /** A tool the chat request enables. */
  datatype Tool = GoogleSearch | GoogleMaps

  /** The request configuration; `None` fields are left undefined. */
  datatype ChatConfig = ChatConfig(tools: Option<seq<Tool>>, retrievalLatLng: Option<LatLng>,
                                   thinkingBudget: Option<nat>)

  /** The chat request: model, content parts and configuration. */
  datatype ChatRequest = ChatRequest(model: string, parts: seq<Part>, config: ChatConfig)

  /** The chat model: the pro model for thinking, code or images, the flash model otherwise. */
  function ChatModel(images: seq<string>, o: ChatOptions): (m: string)
    ensures m == ChatProModel <==> o.useThinking || o.useCode || |images| > 0
    ensures m == ChatFlashModel <==> !(o.useThinking || o.useCode || |images| > 0)
  {
    if o.useThinking || o.useCode || |images| > 0 then ChatProModel
    else if o.useSearch || o.useMaps then ChatFlashModel
    else ChatFlashModel
  }

  /** The tools list: search first when on, then maps when on; undefined when empty. */
  function ChatTools(o: ChatOptions): (t: Option<seq<Tool>>)
    ensures t.None? <==> !o.useSearch && !o.useMaps
    ensures t.Some? ==> (GoogleSearch in t.value <==> o.useSearch) && (GoogleMaps in t.value <==> o.useMaps)
    ensures t.Some? ==> |t.value| == (if o.useSearch then 1 else 0) + (if o.useMaps then 1 else 0)
    ensures t.Some? && o.useSearch ==> t.value[0] == GoogleSearch
  {
    var tools := (if o.useSearch then [GoogleSearch] else []) + (if o.useMaps then [GoogleMaps] else []);
    if |tools| > 0 then Some(tools) else None
  }

  /** The configuration: tools, the maps position when maps and a position are both given, the thinking budget. */
  function BuildChatConfig(o: ChatOptions): (c: ChatConfig)
    ensures c.tools == ChatTools(o)
    ensures c.retrievalLatLng.Some? <==> o.useMaps && o.location.Some?
    ensures c.retrievalLatLng.Some? ==> c.retrievalLatLng == o.location
    ensures c.thinkingBudget.Some? <==> o.useThinking
    ensures c.thinkingBudget.Some? ==> c.thinkingBudget.value == ThinkingBudget
  {
    ChatConfig(ChatTools(o),
               if o.useMaps && o.location.Some? then o.location else None,
               if o.useThinking then Some(ThinkingBudget) else None)
  }

  /** The parts: the message text, then one JPEG inline part per image in order. */
  function ChatParts(message: string, images: seq<string>): (p: seq<Part>)
    ensures |p| == 1 + |images|
    ensures p[0] == TextPart(message)
    ensures forall i | 0 <= i < |images| :: p[i + 1] == InlineDataPart(JpegMime, images[i])
  {
    [TextPart(message)] + seq(|images|, i requires 0 <= i < |images| => InlineDataPart(JpegMime, images[i]))
  }

  /**
   * `generateChatResponse` up to the remote call. The `history` argument is
   * accepted but never sent: the request holds only the new message's parts.
   */
  function BuildChatRequest(history: seq<HistoryEntry>, message: string, images: seq<string>,
                            o: ChatOptions): (r: ChatRequest)
    ensures r.model == ChatModel(images, o)
    ensures r.parts == ChatParts(message, images)
    ensures r.config == BuildChatConfig(o)
  {
    ChatRequest(ChatModel(images, o), ChatParts(message, images), BuildChatConfig(o))
  }

  /** The request does not depend on the history passed in. */
  lemma ChatRequestIgnoresHistory(h1: seq<HistoryEntry>, h2: seq<HistoryEntry>, message: string,
                                  images: seq<string>, o: ChatOptions)
    ensures BuildChatRequest(h1, message, images, o) == BuildChatRequest(h2, message, images, o)
  {
  }

  // ----- Image generation -----

  const ImageProModel: string := "gemini-3-pro-image-preview"
  const ImageFlashModel: string := "gemini-2.5-flash-image"

  /** The two image models the panel offers. */
  datatype ImageModelType = Flash | Pro

  /** The options of an image request. */
  datatype ImageOptions = ImageOptions(modelType: ImageModelType, size: Option<ImageSize>,
                                       ratio: AspectRatio, refImage: Option<string>)

  /** The image request: model, parts and image configuration. */
  datatype ImageRequest = ImageRequest(model: string, parts: seq<Part>, aspectRatio: AspectRatio,
                                       imageSize: Option<ImageSize>)

  /** The model names each request chooses between are different strings. */
  lemma DistinctModelNames()
    ensures ImageProModel != ImageFlashModel
    ensures VideoHqModel != VideoFastModel
  {
    assert ImageProModel[7] != ImageFlashModel[7];
    assert VideoHqModel[8] != VideoFastModel[8];
  }

  /** A JavaScript string value that is present and non-empty, so truthy. */
  predicate Truthy(s: Option<string>) {
    s.Some? && s.value != ""
  }

  /** `generateImage` up to the remote call. */
  function BuildImageRequest(prompt: string, o: ImageOptions): (r: ImageRequest)
    ensures r.model == ImageProModel <==> o.modelType == Pro
    ensures r.model == ImageFlashModel <==> o.modelType == Flash
    ensures r.aspectRatio == o.ratio
    ensures r.imageSize.Some? <==> o.modelType == Pro && o.size.Some?
    ensures r.imageSize.Some? ==> r.imageSize == o.size
    ensures |r.parts| == (if Truthy(o.refImage) then 2 else 1)
    ensures r.parts[0] == TextPart(prompt)
    ensures Truthy(o.refImage) ==> r.parts[1] == InlineDataPart(JpegMime, o.refImage.value)
  {
    DistinctModelNames();
    var model := if o.modelType.Pro? then ImageProModel else ImageFlashModel;
    var parts := [TextPart(prompt)]
                 + (if Truthy(o.refImage) then [InlineDataPart(JpegMime, o.refImage.value)] else []);
    var size := if o.modelType.Pro? && o.size.Some? then o.size else None;
    ImageRequest(model, parts, o.ratio, size)
  }

  /** Inline binary data in a response part. */
  datatype InlineData = InlineData(mimeType: string, data: string)

  /** A part of a response's content. */
  datatype ResponsePart = ResponsePart(text: Option<string>, inlineData: Option<InlineData>)

  /** The index of the first part carrying inline data, if any. */
  function FirstInlineIndex(parts: seq<ResponsePart>): (r: Option<nat>)
    ensures r.None? <==> forall i | 0 <= i < |parts| :: parts[i].inlineData.None?
    ensures r.Some? ==> r.value < |parts| && parts[r.value].inlineData.Some?
    ensures r.Some? ==> forall i | 0 <= i < r.value :: parts[i].inlineData.None?
  {
    if |parts| == 0 then None
    else if parts[0].inlineData.Some? then Some(0)
    else
      match FirstInlineIndex(parts[1..])
      case None => None
      case Some(i) => Some(i + 1)
  }

  /**
   * The image a response yields: the data of the first part of the first
   * candidate that has inline data, or '' when there is none or no parts.
   */
  function ImageResult(parts: Option<seq<ResponsePart>>): (data: string)
    ensures parts.None? ==> data == ""
    ensures parts.Some? && FirstInlineIndex(parts.value).None? ==> data == ""
    ensures parts.Some? && FirstInlineIndex(parts.value).Some?
            ==> data == parts.value[FirstInlineIndex(parts.value).value].inlineData.value.data
  {
    if parts.None? then ""
    else
      match FirstInlineIndex(parts.value)
      case None => ""
      case Some(i) => parts.value[i].inlineData.value.data
  }

  // ----- Video generation -----

  const VideoHqModel: string := "veo-3.1-generate-preview"
  const VideoFastModel: string := "veo-3.1-fast-generate-preview"

  /** The prompt an image-to-video request uses when the prompt is empty. */
  const AnimatePrompt: string := "Animate this image"

  /** The two video qualities the panel offers. */
  datatype VideoQuality = Fast | Hq

  /** The two video aspect ratios: "16:9" and "9:16". */
  datatype VideoRatio = Landscape | Portrait

  /** The video request: model, prompt, optional start frame and fixed configuration. */
  datatype VideoRequest = VideoRequest(model: string, prompt: string, image: Option<InlineData>,
                                       numberOfVideos: nat, resolution: string, aspectRatio: VideoRatio)

  /** `generateVideo` up to the remote call. */
  function BuildVideoRequest(prompt: string, ratio: VideoRatio, quality: VideoQuality,
                             inputImage: Option<string>): (r: VideoRequest)
    ensures r.model == VideoHqModel <==> quality == Hq
    ensures r.model == VideoFastModel <==> quality == Fast
    ensures r.image.Some? <==> Truthy(inputImage)
    ensures r.image.Some? ==> r.image.value == InlineData(JpegMime, inputImage.value)
    ensures prompt != "" ==> r.prompt == prompt
    ensures r.image.None? ==> r.prompt == prompt
    ensures r.image.Some? && prompt == "" ==> r.prompt == AnimatePrompt
    ensures r.numberOfVideos == 1 && r.resolution == "720p" && r.aspectRatio == ratio
  {
    DistinctModelNames();
    var model := if quality.Hq? then VideoHqModel else VideoFastModel;
    if Truthy(inputImage) then
      VideoRequest(model, if prompt != "" then prompt else AnimatePrompt,
                   Some(InlineData(JpegMime, inputImage.value)), 1, "720p", ratio)
    else
      VideoRequest(model, prompt, None, 1, "720p", ratio)
  }

  /** The video URL: the generated video's URI with the API key appended, or null without a URI. */
  function VideoResult(uri: Option<string>, apiKey: string): (r: Option<string>)
    ensures r.Some? <==> Truthy(uri)
    ensures r.Some? ==> uri.value <= r.value && r.value[|uri.value|..] == "&key=" + apiKey
  {
    if Truthy(uri) then Some(uri.value + "&key=" + apiKey) else None
  }

  /** A thrown JavaScript `Error`. */
  datatype JsError = JsError(message: string)

  /** The `name` of the modelled `Error` objects, and the separator `Error.prototype.toString` puts after it. */
  const ErrorName: string := "Error"
  const ErrorPrefix: string := "Error: "

  /**
   * What `String(e)` gives for an `Error` whose `name` is "Error": the name
   * alone when the message is empty, otherwise the name, ": " and the
   * message. Error objects with another name are not modelled.
   */
  function ErrorString(e: JsError): (r: string)
    ensures ErrorName <= r
    ensures e.message == [] <==> r == ErrorName
    ensures e.message != [] ==> ErrorPrefix <= r && r[|ErrorPrefix|..] == e.message
  {
    if e.message == [] then ErrorName else ErrorPrefix + e.message
  }

  /** The error text that means the selected API key is not valid. */
  const NotFoundText: string := "Requested entity was not found"

  /** The message thrown after asking the user to choose another key. */
  const ChooseKeyMessage: string := "אנא בחר מפתח API תקין."

  /**
   * The error `generateVideo` rethrows: a not-found error, when a key
   * selector exists, becomes a request to choose a valid key; any other
   * error propagates unchanged.
   */
  function VideoFailure(e: JsError, keySelectorPresent: bool): (r: JsError)
    ensures Includes(ErrorString(e), NotFoundText) && keySelectorPresent ==> r.message == ChooseKeyMessage
    ensures !(Includes(ErrorString(e), NotFoundText) && keySelectorPresent) ==> r == e
  {
    if Includes(ErrorString(e), NotFoundText) && keySelectorPresent then JsError(ChooseKeyMessage) else e
  }

  /** An occurrence of the not-found text after the prefix lies entirely in the message. */
  lemma NotFoundAfterPrefix(m: string)
    requires Includes(ErrorPrefix + m, NotFoundText)
    ensures Includes(m, NotFoundText)
  {
    var s := ErrorPrefix + m;
    var n := |ErrorPrefix|;
    var i :| 0 <= i <= |s| && OccursAt(s, NotFoundText, i);
    assert s[i] == NotFoundText[0] == 'R';
    assert i >= n;
    forall k | 0 <= k < |NotFoundText| ensures m[i - n + k] == NotFoundText[k] {
      assert s[i + k] == s[i..i + |NotFoundText|][k];
    }
    assert m[i - n..i - n + |NotFoundText|] == NotFoundText;
    assert OccursAt(m, NotFoundText, i - n);
  }

  /** An occurrence of the not-found text in the message survives the prefix. */
  lemma NotFoundKeptByPrefix(m: string)
    requires Includes(m, NotFoundText)
    ensures Includes(ErrorPrefix + m, NotFoundText)
  {
    var s := ErrorPrefix + m;
    var n := |ErrorPrefix|;
    var j :| 0 <= j <= |m| && OccursAt(m, NotFoundText, j);
    forall k | 0 <= k < |NotFoundText| ensures s[j + n + k] == NotFoundText[k] {
      assert m[j + k] == m[j..j + |NotFoundText|][k];
    }
    assert s[j + n..j + n + |NotFoundText|] == NotFoundText;
    assert OccursAt(s, NotFoundText, j + n);
  }

  /** The not-found test on `String(e)` is the same test on the message. */
  lemma PrefixKeepsNotFound(e: JsError)
    ensures Includes(ErrorString(e), NotFoundText) <==> Includes(e.message, NotFoundText)
  {
    if e.message == [] {
      assert |ErrorName| < |NotFoundText|;
    } else {
      if Includes(ErrorPrefix + e.message, NotFoundText) {
        NotFoundAfterPrefix(e.message);
      }
      if Includes(e.message, NotFoundText) {
        NotFoundKeptByPrefix(e.message);
      }
    }
  }

  // ----- Live session -----

  /** A message from the live session: the parts of the model's turn, if the message has any. */
  datatype LiveMessage = LiveMessage(modelTurnParts: Option<seq<ResponsePart>>)

  /**
   * The audio the `onmessage` handler forwards: the inline data of the first
   * part only, and only when it is present and non-empty.
   */
  function FirstPartAudio(m: LiveMessage): (r: Option<string>)
    ensures r.Some? <==> m.modelTurnParts.Some? && |m.modelTurnParts.value| > 0
                         && m.modelTurnParts.value[0].inlineData.Some?
                         && m.modelTurnParts.value[0].inlineData.value.data != ""
    ensures r.Some? ==> r.value == m.modelTurnParts.value[0].inlineData.value.data
  {
    match m.modelTurnParts
    case None => None
    case Some(parts) =>
      if |parts| > 0 && parts[0].inlineData.Some? && parts[0].inlineData.value.data != ""
      then Some(parts[0].inlineData.value.data)
      else None
  }

  /** Parts after the first never reach the audio callback. */
  lemma LaterPartsIgnored(first: ResponsePart, later: seq<ResponsePart>)
    ensures FirstPartAudio(LiveMessage(Some([first] + later))) == FirstPartAudio(LiveMessage(Some([first])))
  {
  }
}
