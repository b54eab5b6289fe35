/**
 * The media panel controller (components/MediaGenerator.tsx): the generate
 * guards, the options each request forwards, the loading / error / result
 * transitions, tab switching, the unlock flag and the upload payload.
 */
module MediaGenerator {
  import opened Wrappers
  import opened Types
  import opened JsStrings
  import opened GeminiService
  import Base64
  import Bytes

  /** The two tabs of the panel. */
  datatype Tab = ImageTab | VideoTab

  /** The error raised when an image request returns no image. */
  const NoImageMessage: string := "לא התקבלה תמונה"

  /** The error shown when a failure carries no message. */
  const DefaultErrorMessage: string := "שגיאה ביצירת התוכן"

  /** The prefix that turns base64 JPEG data into a displayable URL. */
  const JpegDataUrlPrefix: string := "data:image/jpeg;base64,"

  /** The panel's state; `None` stands for `null`. */
  datatype MediaPanel = MediaPanel(
    tab: Tab, prompt: string, loading: bool, resultUrl: Option<string>, error: Option<string>,
    videoUnlocked: bool,
    modelType: ImageModelType, ratio: AspectRatio, size: ImageSize, editImage: Option<string>,
    videoRatio: VideoRatio, videoQuality: VideoQuality, videoImage: Option<string>)

  /** The panel as mounted. */
  const Initial: MediaPanel :=
    MediaPanel(ImageTab, "", false, None, None, false, Flash, R1x1, Size1K, None, Landscape, Fast, None)

  /** The service call a generate issues. */
  datatype MediaCall =
    | ImageCall(prompt: string, options: ImageOptions)
    | VideoCall(prompt: string, ratio: VideoRatio, quality: VideoQuality, inputImage: Option<string>)

  /** `editImage || undefined` and its like: an empty string is passed as absent. */
  function OrUndefined(s: Option<string>): (r: Option<string>)
    ensures r.Some? <==> Truthy(s)
    ensures r.Some? ==> r == s
  {
    if Truthy(s) then s else None
  }

  /** The image options the panel forwards: the size only for the 'pro' model, the reference image only when loaded. */
  function ImageCallOptions(p: MediaPanel): (o: ImageOptions)
    ensures o.modelType == p.modelType && o.ratio == p.ratio
    ensures o.size.Some? <==> p.modelType == Pro
    ensures o.size.Some? ==> o.size.value == p.size
    ensures o.refImage.Some? <==> Truthy(p.editImage)
    ensures o.refImage.Some? ==> o.refImage == p.editImage
  {
    ImageOptions(p.modelType, if p.modelType.Pro? then Some(p.size) else None, p.ratio, OrUndefined(p.editImage))
  }

  /** Generate does nothing: on the image tab without a prompt, on the video tab without a prompt and a start frame. */
  predicate GenerateIgnored(p: MediaPanel) {
    (p.prompt == [] && p.tab == ImageTab) || (p.prompt == [] && !Truthy(p.videoImage) && p.tab == VideoTab)
  }

  /**
   * The synchronous part of `handleGenerate`: unless ignored, loading starts,
   * error and result are cleared, and the call for the current tab is made.
   * (The unlock flag is not consulted here; only the button checks it.)
   */
  function BeginGenerate(p: MediaPanel): (r: Option<(MediaPanel, MediaCall)>)
    ensures r.None? <==> GenerateIgnored(p)
    ensures r.Some? ==> r.value.0 == p.(loading := true, error := None, resultUrl := None)
    ensures r.Some? && p.tab == ImageTab ==> r.value.1 == ImageCall(p.prompt, ImageCallOptions(p))
    ensures r.Some? && p.tab == VideoTab
            ==> r.value.1 == VideoCall(p.prompt, p.videoRatio, p.videoQuality, OrUndefined(p.videoImage))
  {
    if GenerateIgnored(p) then None
    else
      var call := if p.tab.ImageTab? then ImageCall(p.prompt, ImageCallOptions(p))
                  else VideoCall(p.prompt, p.videoRatio, p.videoQuality, OrUndefined(p.videoImage));
      Some((p.(loading := true, error := None, resultUrl := None), call))
  }

  /** How the service call ended. */
  datatype GenerateOutcome =
    | ImageReturned(base64: string)     // `generateImage` resolved
    | VideoReturned(url: Option<string>) // `generateVideo` resolved
    | Threw(message: string)            // either rejected with this message

  /** The error text shown for a failure: its message, or the default when the message is empty. */
  function ErrorText(message: string): (r: string)
    ensures r != []
    ensures message != [] ==> r == message
    ensures message == [] ==> r == DefaultErrorMessage
  {
    if message == [] then DefaultErrorMessage else message
  }

  /**
   * The asynchronous end of `handleGenerate`: an image becomes a JPEG data
   * URL, an empty image is an error, a video URL (or null) is stored, a
   * failure sets the error; loading ends in every case.
   */
  function FinishGenerate(p: MediaPanel, outcome: GenerateOutcome): (r: MediaPanel)
    ensures !r.loading
    ensures outcome.ImageReturned? && outcome.base64 != []
            ==> r == p.(loading := false, resultUrl := Some(JpegDataUrlPrefix + outcome.base64))
    ensures outcome.ImageReturned? && outcome.base64 == []
            ==> r == p.(loading := false, error := Some(NoImageMessage))
    ensures outcome.VideoReturned? ==> r == p.(loading := false, resultUrl := outcome.url)
    ensures outcome.Threw? ==> r == p.(loading := false, error := Some(ErrorText(outcome.message)))
  {
    match outcome
    case ImageReturned(base64) =>
      if base64 != [] then p.(resultUrl := Some(JpegDataUrlPrefix + base64), loading := false)
      else p.(error := Some(ErrorText(NoImageMessage)), loading := false)
    case VideoReturned(url) => p.(resultUrl := url, loading := false)
    case Threw(message) => p.(error := Some(ErrorText(message)), loading := false)
  }

  /** An empty image is handled as a failure carrying the no-image message. */
  lemma EmptyImageIsFailure(p: MediaPanel)
    ensures FinishGenerate(p, ImageReturned([])) == FinishGenerate(p, Threw(NoImageMessage))
  {
  }

  /**
   * An accepted generate ends with loading off and never with both a result
   * and an error; it ends with one of them unless the video call returned
   * no URL.
   */
  lemma GenerateCycle(p: MediaPanel, outcome: GenerateOutcome)
    requires !GenerateIgnored(p)
    ensures var q := FinishGenerate(BeginGenerate(p).value.0, outcome);
            !q.loading
            && (q.resultUrl.Some? ==> q.error.None?)
            && (q.error.Some? ==> q.resultUrl.None?)
            && (outcome.VideoReturned? && outcome.url.None? ==> q.resultUrl.None? && q.error.None?)
            && (outcome != VideoReturned(None) ==> q.resultUrl.Some? || q.error.Some?)
  {
  }

  /**
   * The request an image generate ends up sending: the 'pro' model exactly
   * when 'pro' is chosen, an image size exactly then, and the reference
   * image as second part exactly when one is loaded.
   */
  lemma ImageRequestFromPanel(p: MediaPanel)
    requires p.tab == ImageTab && p.prompt != []
    ensures var call := BeginGenerate(p).value.1;
            var req := BuildImageRequest(call.prompt, call.options);
            && (req.model == ImageProModel <==> p.modelType == Pro)
            && (req.imageSize.Some? <==> p.modelType == Pro)
            && (req.imageSize.Some? ==> req.imageSize.value == p.size)
            && req.aspectRatio == p.ratio
            && (|req.parts| == 2 <==> Truthy(p.editImage))
  {
  }

  /** A video generate with a start frame and no prompt asks to animate the image. */
  lemma VideoRequestFromPanel(p: MediaPanel)
    requires p.tab == VideoTab && p.prompt == [] && Truthy(p.videoImage)
    ensures var call := BeginGenerate(p).value.1;
            var req := BuildVideoRequest(call.prompt, call.ratio, call.quality, call.inputImage);
            req.prompt == AnimatePrompt && req.image == Some(InlineData(JpegMime, p.videoImage.value))
  {
  }

  /** Switching tabs clears the result and changes nothing else. */
  function SelectTab(p: MediaPanel, t: Tab): (r: MediaPanel)
    ensures r.tab == t && r.resultUrl.None?
    ensures r.(tab := p.tab, resultUrl := p.resultUrl) == p
  {
    p.(tab := t, resultUrl := None)
  }

  /** The generate button is disabled while loading, and on the video tab until unlocked. */
  function GenerateDisabled(p: MediaPanel): (disabled: bool)
    ensures p.tab == ImageTab ==> (disabled <==> p.loading)
    ensures p.tab == VideoTab ==> (disabled <==> p.loading || !p.videoUnlocked)
  {
    p.loading || (p.tab == VideoTab && !p.videoUnlocked)
  }

  /**
   * The button and the handler guard different things: the button never looks
   * at the prompt or the start frame, and the handler never looks at the
   * unlock flag or the loading flag. So an enabled button can still lead to an
   * ignored generate, and a locked video tab is guarded by the button alone.
   */
  lemma ButtonAndHandlerGuards(p: MediaPanel, prompt: string, videoImage: Option<string>, unlocked: bool, loading: bool)
    ensures GenerateDisabled(p.(prompt := prompt, videoImage := videoImage)) == GenerateDisabled(p)
    ensures GenerateIgnored(p.(videoUnlocked := unlocked, loading := loading)) == GenerateIgnored(p)
    ensures !p.loading && p.prompt == [] && p.tab == ImageTab ==> !GenerateDisabled(p) && GenerateIgnored(p)
    ensures p.tab == VideoTab && !p.videoUnlocked && p.prompt != [] ==> GenerateDisabled(p) && !GenerateIgnored(p)
  {
  }

  /** Whether a key selector exists, and how it answered. */
  datatype UnlockOutcome = NoKeySelector | KeySelected | SelectorThrew

  /** `handleUnlockVideo`: unlocked unless the selector throws, in which case nothing changes. */
  function Unlock(p: MediaPanel, outcome: UnlockOutcome): (r: MediaPanel)
    ensures outcome != SelectorThrew ==> r == p.(videoUnlocked := true)
    ensures outcome == SelectorThrew ==> r == p
  {
    if outcome.SelectorThrew? then p else p.(videoUnlocked := true)
  }

  /** Once unlocked, the video tab's button is disabled only while loading. */
  lemma UnlockEnablesVideo(p: MediaPanel, outcome: UnlockOutcome)
    requires outcome != SelectorThrew
    ensures var q := SelectTab(Unlock(p, outcome), VideoTab);
            GenerateDisabled(q) <==> p.loading
  {
  }

  /** Which picker a file came from. */
  datatype UploadTarget = ForImage | ForVideo

  /** The upload handler: store the second comma-separated field of the data URL. */
  function StoreUpload(p: MediaPanel, target: UploadTarget, dataUrl: string): (r: MediaPanel)
    ensures target == ForImage ==> r == p.(editImage := SecondField(dataUrl))
    ensures target == ForVideo ==> r == p.(videoImage := SecondField(dataUrl))
  {
    if target.ForImage? then p.(editImage := SecondField(dataUrl)) else p.(videoImage := SecondField(dataUrl))
  }

  /** The data URL of a file stores exactly its base64 payload. */
  lemma UploadStoresPayload(p: MediaPanel, target: UploadTarget, mime: string, payload: string)
    requires ',' !in mime && ',' !in payload
    ensures var q := StoreUpload(p, target, "data:" + mime + ";base64," + payload);
            (target == ForImage ==> q.editImage == Some(payload))
            && (target == ForVideo ==> q.videoImage == Some(payload))
  {
    var prefix := "data:" + mime + ";base64";
    assert ',' !in prefix by {
      assert forall k | 0 <= k < |prefix| :: prefix[k] != ',' by {
        forall k | 0 <= k < |prefix| ensures prefix[k] != ',' {
          if k < 5 { assert prefix[k] == "data:"[k]; }
          else if k < 5 + |mime| { assert prefix[k] == mime[k - 5]; }
          else { assert prefix[k] == ";base64"[k - 5 - |mime|]; }
        }
      }
    }
    assert "data:" + mime + ";base64," + payload == prefix + "," + payload + [];
    SecondFieldOfJoin(prefix, payload, []);
  }

  /** A generated image's data URL carries back the image data after its comma. */
  lemma ResultUrlPayload(base64: string)
    requires ',' !in base64
    ensures SecondField(JpegDataUrlPrefix + base64) == Some(base64)
  {
    assert JpegDataUrlPrefix + base64 == "data:image/jpeg;base64" + "," + base64 + [];
    SecondFieldOfJoin("data:image/jpeg;base64", base64, []);
  }

  /** The data URL of any base64-encoded image splits back into that encoding. */
  lemma ResultUrlOfEncodedImage(image: seq<Bytes.Byte>)
    ensures SecondField(JpegDataUrlPrefix + Base64.Encode(image)) == Some(Base64.Encode(image))
  {
    Base64.EncodeAlphabet(image);
    ResultUrlPayload(Base64.Encode(image));
  }
}
