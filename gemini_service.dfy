/** services/geminiService.ts: how each remote call's outcome is shaped into
    a value or a thrown error, and how `generateStoryWithAssets` pairs the
    per-page image and audio results with the structure's pages. The remote
    calls themselves are parameters: each either responds or throws. */
module GeminiService {
  import opened Wrappers
  import opened StoryTypes

  /** The outcome of one awaited remote call. */
  datatype RemoteCall<T> = Responded(response: T) | Threw

  /** A thrown JavaScript value: an `Error` with its message, or anything else. */
  datatype Thrown = ErrorObject(message: string) | OtherValue

  const StoryFailedMessage := "Failed to generate story. The model might be unable to create content for this prompt."
  const ImageFailedMessage := "Failed to generate image."
  const AudioFailedMessage := "Failed to generate audio."
  const ImageDataPrefix := "data:image/png;base64,"

  /** `generateStory`. The response is the story that `JSON.parse` yields, or
      None when the trimmed text does not parse. Every failure, whatever its
      cause, is replaced by one fixed error. */
  function GenerateStory(call: RemoteCall<Option<Story>>): (r: Result<Story, Thrown>)
    ensures r.Success? <==> call.Responded? && call.response.Some?
    ensures r.Success? ==> r.value == call.response.value
    ensures r.Failure? ==> r.error == ErrorObject(StoryFailedMessage)
  {
    match call
    case Threw => Failure(ErrorObject(StoryFailedMessage))
    case Responded(parsed) =>
      match parsed
      case None => Failure(ErrorObject(StoryFailedMessage))
      case Some(story) => Success(story)
  }

  /** `generateImage`. The response is `generatedImages` (None when missing),
      each image given by its base 64 bytes. */
  function GenerateImage(call: RemoteCall<Option<seq<string>>>): (r: Result<string, Thrown>)
    ensures r.Success? <==> call.Responded? && call.response.Some? && |call.response.value| > 0
    ensures r.Success? ==> r.value == ImageDataPrefix + call.response.value[0]
    ensures r.Failure? ==> r.error == ErrorObject(ImageFailedMessage)
  {
    if call.Responded? && call.response.Some? && |call.response.value| > 0 then
      Success(ImageDataPrefix + call.response.value[0])
    else
      Failure(ErrorObject(ImageFailedMessage))
  }

  /** `generateAudio`. The response is
      `candidates?.[0]?.content?.parts?.[0]?.inlineData?.data` (None when any
      link is missing); an empty string is falsy and fails like a missing one. */
  function GenerateAudio(call: RemoteCall<Option<string>>): (r: Result<string, Thrown>)
    ensures r.Success? <==> call.Responded? && Truthy(call.response)
    ensures r.Success? ==> r.value == call.response.value && r.value != ""
    ensures r.Failure? ==> r.error == ErrorObject(AudioFailedMessage)
  {
    if call.Responded? && Truthy(call.response) then
      Success(call.response.value)
    else
      Failure(ErrorObject(AudioFailedMessage))
  }

  /** `.catch(() => null)`. */
  function OrNull(r: Result<string, Thrown>): (v: Option<string>)
    ensures v.Some? <==> r.Success?
    ensures v.Some? ==> v.value == r.value
  {
    match r
    case Success(s) => Some(s)
    case Failure(_) => None
  }

  /** `[imageUrl, audioData]` for one page. */
  datatype AssetPair = AssetPair(image: Option<string>, audio: Option<string>)

  /** The image and audio requests issued for page `index`, each caught
      separately, so either can fail alone. */
  function FetchAssets(index: nat, page: Page,
                       images: (nat, string) -> RemoteCall<Option<seq<string>>>,
                       audio: (nat, string) -> RemoteCall<Option<string>>): (a: AssetPair)
    ensures a.image == OrNull(GenerateImage(images(index, page.image_prompt)))
    ensures a.audio == OrNull(GenerateAudio(audio(index, page.tts_text)))
  {
    AssetPair(OrNull(GenerateImage(images(index, page.image_prompt))),
              OrNull(GenerateAudio(audio(index, page.tts_text))))
  }

  /** `image_url: imageUrl` stores null or the string. */
  function ImageFieldOf(image: Option<string>): (f: ImageField)
    ensures f != Absent
    ensures f.Url? <==> image.Some?
    ensures f.Url? ==> f.url == image.value
  {
    match image
    case None => Null
    case Some(u) => Url(u)
  }

  /** `{ ...page, image_url: imageUrl, audio_url: audioData }`. */
  function WithAssets(page: Page, assets: AssetPair): (p: Page)
    ensures p.page_number == page.page_number && p.text == page.text
    ensures p.tts_text == page.tts_text && p.image_prompt == page.image_prompt
    ensures p.image_metadata == page.image_metadata
    ensures p.image_url == ImageFieldOf(assets.image) && p.audio_url == assets.audio
  {
    page.(image_url := ImageFieldOf(assets.image), audio_url := assets.audio)
  }

  /** Step 4 of `generateStoryWithAssets`: page `i` takes asset pair `i`. */
  function MergeAssets(story: Story, assets: seq<AssetPair>): (r: Story)
    requires |assets| == |story.pages|
    ensures r.title == story.title && r.subtitle == story.subtitle && r.meta == story.meta
    ensures |r.pages| == |story.pages|
    ensures forall i :: 0 <= i < |r.pages| ==> r.pages[i] == WithAssets(story.pages[i], assets[i])
  {
    story.(pages := seq(|story.pages|, i requires 0 <= i < |story.pages| => WithAssets(story.pages[i], assets[i])))
  }

  /** `generateStoryWithAssets`: the structure call, then one asset pair per
      page (the `Promise.all` over `story.pages.map`), then the merge. */
  function GenerateStoryWithAssets(structure: RemoteCall<Option<Story>>,
                                   images: (nat, string) -> RemoteCall<Option<seq<string>>>,
                                   audio: (nat, string) -> RemoteCall<Option<string>>): (r: Result<Story, Thrown>)
    ensures r.Failure? <==> GenerateStory(structure).Failure?
    ensures r.Failure? ==> r.error == ErrorObject(StoryFailedMessage)
    ensures r.Success? ==>
      var story := GenerateStory(structure).value;
      && r.value.title == story.title && r.value.subtitle == story.subtitle && r.value.meta == story.meta
      && |r.value.pages| == |story.pages|
      && forall i :: 0 <= i < |story.pages| ==>
           r.value.pages[i] == WithAssets(story.pages[i], FetchAssets(i, story.pages[i], images, audio))
  {
    match GenerateStory(structure)
    case Failure(e) => Failure(e)
    case Success(story) =>
      var assets := seq(|story.pages|, i requires 0 <= i < |story.pages| => FetchAssets(i, story.pages[i], images, audio));
      Success(MergeAssets(story, assets))
  }

  /** Once the structure exists, no asset outcome can make the call fail, and
      each page's image slot is determined by its own image request alone:
      another audio outcome leaves it as it is, and vice versa. */
  lemma AssetFailuresAreIsolated(structure: RemoteCall<Option<Story>>,
                                 images: (nat, string) -> RemoteCall<Option<seq<string>>>,
                                 images': (nat, string) -> RemoteCall<Option<seq<string>>>,
                                 audio: (nat, string) -> RemoteCall<Option<string>>,
                                 audio': (nat, string) -> RemoteCall<Option<string>>)
    requires GenerateStory(structure).Success?
    ensures GenerateStoryWithAssets(structure, images, audio).Success?
    ensures GenerateStoryWithAssets(structure, images, audio').Success?
    ensures GenerateStoryWithAssets(structure, images', audio).Success?
    ensures var a, b := GenerateStoryWithAssets(structure, images, audio).value,
                        GenerateStoryWithAssets(structure, images, audio').value;
      forall i :: 0 <= i < |a.pages| ==> a.pages[i].image_url == b.pages[i].image_url
    ensures var a, c := GenerateStoryWithAssets(structure, images, audio).value,
                        GenerateStoryWithAssets(structure, images', audio).value;
      forall i :: 0 <= i < |a.pages| ==> a.pages[i].audio_url == c.pages[i].audio_url
  {
  }

  /** What a merged page's asset slots mean: an image URL exactly when the
      image request produced at least one image, audio exactly when the speech
      request returned non-empty inline data; null otherwise, never absent. */
  lemma MergedSlots(structure: RemoteCall<Option<Story>>,
                    images: (nat, string) -> RemoteCall<Option<seq<string>>>,
                    audio: (nat, string) -> RemoteCall<Option<string>>, i: nat)
    requires GenerateStory(structure).Success? && i < |structure.response.value.pages|
    ensures var page, merged := structure.response.value.pages[i],
                                GenerateStoryWithAssets(structure, images, audio).value.pages[i];
      var img, snd := images(i, page.image_prompt), audio(i, page.tts_text);
      && merged.image_url != Absent
      && (merged.image_url.Url? <==> img.Responded? && img.response.Some? && |img.response.value| > 0)
      && (merged.image_url.Url? ==> merged.image_url.url == ImageDataPrefix + img.response.value[0])
      && (merged.audio_url.Some? <==> snd.Responded? && Truthy(snd.response))
      && (merged.audio_url.Some? ==> merged.audio_url == snd.response)
  {
  }
}
