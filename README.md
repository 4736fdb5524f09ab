# Masal Yaratıcısı — a Dafny model of its story pipeline and players

Masal Yaratıcısı ("story maker") is a browser app. A child's theme goes in.
Out comes a Turkish picture story, with an image and spoken narration for
each page. This project models the app's stateful core in Dafny:

- **Story and page data** (`types.ts`), as datatypes. `image_url` can be
  missing, null or a string. `audio_url` can be null or a string.
- **PCM decoding** (`utils/audioUtils.ts`). `decode` turns base 64 text into
  a byte array. `atob` is modelled as decoding per section 4 of RFC 4648.
  `decodeAudioData` reads the bytes as little-endian 16-bit samples (an `Int16Array` uses the platform's byte order, which is little-endian on the platforms browsers run on) and
  de-interleaves them by channel. It normalises each sample by 32768 and
  adds half a second of silent frames. Both are methods with loops over
  arrays. The buffer is an `array2<real>`: an int16 divided by 2^15 is exact
  in single precision, so real numbers lose nothing.
- **Remote-call shaping and the asset merge** (`services/geminiService.ts`).
  Each remote call is a parameter that either responds or throws. The model
  follows how `generateStory`, `generateImage` and `generateAudio` turn that
  into a value or a fixed error. `generateStoryWithAssets` pairs page `i`
  with image and audio result `i`. A failed asset becomes null.
- **The page player** (`components/StoryPage.tsx`). A class whose fields are
  the component's state and refs. It has one method per handler: the mount
  effect with `processAudio`, play/pause, the `onended` callback and the
  effect cleanup. Web Audio sources are abstract handles. The player also
  tracks which handles are audible, connected, and still owe their `ended`
  event.
- **The reader** (`components/StoryReader.tsx`): a clamped page index, the
  first/last flags and the three playback rates.
- **The root state** (`App.tsx`): `story`, `isLoading` and `error`, the four
  handlers, and which panels are shown.
- **The form** (`components/StoryGenerator.tsx`): the fields, the page-count
  slider, and `handleSubmit`. That covers JavaScript's `trim`, the order of
  the callbacks, and routing of the generation outcome.

Three facts about the code shape the model:

- Images and audio for every page are fetched eagerly, before the story is
  shown.
- The merge overwrites `image_url` and `audio_url` with whatever came back,
  null included.
- An odd trailing byte of PCM data is ignored: the `Int16Array` length is
  rounded down.

The reader renders the page player with `key={currentPageIndex}`
(components/StoryReader.tsx:38). Turning the page therefore unmounts the
player and mounts a new one: in the running app a page change is `Cleanup`
followed by a fresh `Mount`. `ChangePage` models the other way the effect
code runs, a new `page` for a player that stays mounted. The app never
takes that path, but the effect is written for it.

## Model

| member | source | states |
|---|---|---|
| `StoryTypes.AbsentAndNullAgree` | types.ts:13 | a missing `image_url` and a null one both read as "no image" |
| `Base64.ValueOf` | utils/audioUtils.ts:4 | reading an alphabet character gives the 6-bit value that the RFC 4648 table maps back to that character |
| `Base64.Decode` | utils/audioUtils.ts:4 | accepted text is a whole number of four-character quanta of alphabet characters and `=`, and decodes to three octets per quantum, less at most two for padding |
| `Base64.Atob` | utils/audioUtils.ts:4 | `atob` succeeds exactly when the text decodes; the binary string has one character per decoded octet, with that octet as its code |
| `Base64.RoundTrip` | utils/audioUtils.ts:2-11 | decoding the RFC 4648 (section 4) encoding of any byte sequence gives that sequence back |
| `Base64.DecodedLength` | utils/audioUtils.ts:4 | accepted text is exactly as long as the encoding of what it decodes to: four characters per started group of three octets |
| `AudioUtils.Decode` | utils/audioUtils.ts:3-11 | fails exactly when `atob` fails; otherwise a fresh array with one entry per binary-string character, entry `i` being the code of character `i`, i.e. the base 64 decoding of the input |
| `AudioUtils.ToInt16` | utils/audioUtils.ts:22 | a little-endian byte pair read in two's complement: congruent to `lo + 256*hi` modulo 2^16, negative exactly when the high byte is 128 or more |
| `AudioUtils.Int16RoundTrip` | utils/audioUtils.ts:22 | splitting any 16-bit value into its two bytes and reading them back gives the value |
| `AudioUtils.Int16View` | utils/audioUtils.ts:21-22 | the view has `byteLength / 2` samples (rounded down), sample `k` read from bytes `2k` and `2k+1` |
| `AudioUtils.Normalise` | utils/audioUtils.ts:34-35 | `sample / 32768` lies in [-1, 1) and times 32768 is the sample again |
| `AudioUtils.PaddingFrames` | utils/audioUtils.ts:25-26 | the pad is `ceil(sampleRate * 0.5)` frames: the least p with 2p >= sampleRate |
| `AudioUtils.PaddingAt24kHz` | utils/audioUtils.ts:25-26 | at 24000 Hz the pad is 12000 frames |
| `AudioUtils.FrameCount` | utils/audioUtils.ts:23 | the number of whole frames: f frames fit in the samples and f + 1 do not |
| `AudioUtils.FrameIndexInView` | utils/audioUtils.ts:33-35 | every read `i * numChannels + c` of a whole frame lies inside the view |
| `AudioUtils.SampleRange` | utils/audioUtils.ts:34-37 | every buffer value lies in [-1, 1), and every frame from `frameCount` on is silence |
| `AudioUtils.MonoSample` | utils/audioUtils.ts:31-36 | for one channel the frame count is the sample count and frame `i` times 32768 is sample `i` |
| `AudioUtils.AudioBuffer.constructor` | utils/audioUtils.ts:29 | `createBuffer` gives the requested channels and length, all zero |
| `AudioUtils.DecodeAudioData` | utils/audioUtils.ts:15-40 | fails for zero channels or a zero rate; otherwise a fresh buffer of `frameCount + paddingFrames` frames per channel, where channel `c` frame `i` is `int16[i*numChannels + c] / 32768` for whole frames and 0 after them |
| `AudioUtils.LoopFramesAsWritten` | utils/audioUtils.ts:23-33 | as written, the frame loop runs ceil(samples / numChannels) times: enough frames to cover every sample, and no frame that starts past them |
| `AudioUtils.PartialFrameReadsPastView` | utils/audioUtils.ts:23-35 | when numChannels > 1 does not divide the sample count, the as-written loop runs one frame more than there are whole frames, and its last read is past the view |
| `AudioUtils.ThreeSamplesInStereo` | utils/audioUtils.ts:22-35 | six bytes in stereo: three samples, one whole frame, two loop passes, and a last read at index 3 |
| `GeminiService.GenerateStory` | services/geminiService.ts:51-70 | succeeds exactly when the call responds with parseable JSON, returning the parsed story; every other outcome is the one fixed error, never a partial story |
| `GeminiService.GenerateImage` | services/geminiService.ts:72-91 | succeeds exactly when at least one image came back, giving `data:image/png;base64,` followed by the first image's bytes; otherwise the fixed image error |
| `GeminiService.GenerateAudio` | services/geminiService.ts:93-118 | succeeds exactly when non-empty inline audio data came back, giving that data; a missing or empty payload gives the fixed audio error |
| `GeminiService.OrNull` | services/geminiService.ts:126-135 | `.catch(() => null)`: null exactly on failure, the value otherwise |
| `GeminiService.FetchAssets` | services/geminiService.ts:125-137 | page `i`'s pair is its own image request on `image_prompt` and its own speech request on `tts_text`, each caught separately |
| `GeminiService.ImageFieldOf` | services/geminiService.ts:147 | the merged `image_url` is a URL exactly when there is a result, otherwise null, never absent |
| `GeminiService.WithAssets` | services/geminiService.ts:145-149 | `page_number`, `text`, `tts_text`, `image_prompt` and `image_metadata` are copied; only `image_url` and `audio_url` take the asset pair |
| `GeminiService.MergeAssets` | services/geminiService.ts:143-155 | same title, subtitle and meta, same number of pages, page `i` merged with asset pair `i` |
| `GeminiService.GenerateStoryWithAssets` | services/geminiService.ts:120-156 | fails exactly when structure generation fails, with its fixed error; otherwise the structure story with page `i` merged with page `i`'s own assets |
| `GeminiService.AssetFailuresAreIsolated` | services/geminiService.ts:126-140 | once the structure exists no asset outcome fails the call; changing the audio outcomes leaves every image slot as it is, and vice versa |
| `GeminiService.MergedSlots` | services/geminiService.ts:143-149 | a merged page has an image URL exactly when its image request returned an image (the data URL of the first one), audio exactly when its speech request returned non-empty data; the other case is null |
| `StoryPage.PagePlayer.Mount` | components/StoryPage.tsx:16-62 | a new player starts with no source and a context; the image error is set exactly when the page has no image; the audio ends as ProcessAudio leaves it |
| `StoryPage.PagePlayer.RunEffect` | components/StoryPage.tsx:25-62 | the effect creates the context when it is missing, records a missing image, then runs `processAudio`; no source is created, and a state with at most one audible source keeps that property |
| `StoryPage.PagePlayer.ProcessAudio` | components/StoryPage.tsx:36-60 | no payload: no buffer and "Ses verisi bulunamadı."; a decode failure: no buffer and "Ses verisi işlenemedi."; otherwise the buffer decoded from the payload at 24000 Hz mono, and no error; always not processing and not playing, and the play button is enabled exactly when a buffer exists |
| `StoryPage.PagePlayer.PlayEnabled` | components/StoryPage.tsx:118 | the play button is enabled only with a decoded buffer and no processing under way; once processing is over, exactly when there is a buffer |
| `StoryPage.PagePlayer.PlayPause` | components/StoryPage.tsx:79-104 | nothing changes without a context or a buffer; while playing, the held source is stopped and released; otherwise exactly one new source at `playbackRate` is created, connected, started and held; `isPlaying` stays in step with the held source |
| `StoryPage.PagePlayer.OnEnded` | components/StoryPage.tsx:97-100 | a source's end releases it and stops playing when it is the held source, and otherwise only marks it finished; at most one source stays audible |
| `StoryPage.PagePlayer.OnEndedAsWritten` | components/StoryPage.tsx:97-100 | as written, any source's end clears the held source and sets `isPlaying` false; `isPlaying` still matches the held source |
| `StoryPage.PagePlayer.Cleanup` | components/StoryPage.tsx:65-76 | a held source is stopped, disconnected and released, and playing stops; nothing else changes; nothing is left audible when at most the held source was audible, while a source the as-written `onended` already released keeps playing |
| `StoryPage.PagePlayer.ChangePage` | components/StoryPage.tsx:25-77 | a new page for the same player: cleanup, then the effect; no source is held afterwards, only the held source is silenced, and nothing is audible when at most the held source was |
| `StoryPage.StaleEndedAsWritten` | components/StoryPage.tsx:87-102 | play, pause, play, the late end of source 0, play: with the as-written callback two sources are audible at once |
| `StoryPage.StaleEndedCorrected` | components/StoryPage.tsx:87-102 | the same events with the identity check leave nothing audible: the late event is ignored and the last click pauses |
| `StoryPage.StaleEndedThenPageTurn` | components/StoryPage.tsx:65-102 | the same race with the as-written callback, followed by a page turn (cleanup, then a new player): source 1 of the old page is still audible, and the new player holds no source that could stop it |
| `StoryReader.Rate.Value` | components/StoryReader.tsx:10-14 | every rate offered is one of 0.75, 1 and 1.5, and 1 is the normal rate |
| `StoryReader.SpeedOptionsTable` | components/StoryReader.tsx:10-14 | every rate has a button; the buttons run from slowest to fastest, with distinct values and labels |
| `StoryReader.HighlightedOption` | components/StoryReader.tsx:65-73 | a button is highlighted exactly when its option is the chosen one |
| `StoryReader.NextIndex` | components/StoryReader.tsx:20-22 | next page is `min(index + 1, len - 1)`: one further, or the same on the last page, and never past it |
| `StoryReader.PreviousIndex` | components/StoryReader.tsx:24-26 | previous page is `max(index - 1, 0)`: one back, or the same on the first page, and never below 0 |
| `StoryReader.NextStopsOnLastPage` | components/StoryReader.tsx:21-29 | next changes nothing exactly on the last page, where `isLastPage` hides its button |
| `StoryReader.PreviousStopsOnFirstPage` | components/StoryReader.tsx:25-28 | previous changes nothing exactly on the first page, where `isFirstPage` hides its button |
| `StoryReader.Navigate` | components/StoryReader.tsx:17-26 | from a valid index, any sequence of next/previous presses keeps the index within the pages |
| `StoryReader.ForwardPresses` | components/StoryReader.tsx:20-22 | k presses of next reach page `min(index + k, len - 1)` |
| `StoryReader.BackPresses` | components/StoryReader.tsx:24-26 | k presses of previous reach page `max(index - k, 0)` |
| `StoryReader.Reader.constructor` | components/StoryReader.tsx:16-18 | the reader starts on page 0 at the normal rate |
| `StoryReader.Reader.GoToNextPage` | components/StoryReader.tsx:20-22 | the index becomes NextIndex of the old one; the rate is unchanged |
| `StoryReader.Reader.GoToPreviousPage` | components/StoryReader.tsx:24-26 | the index becomes PreviousIndex of the old one; the rate is unchanged |
| `StoryReader.Reader.SetPlaybackRate` | components/StoryReader.tsx:65-68 | the rate becomes the chosen option; the page is unchanged |
| `StoryReader.Reader.IsFirstPage` | components/StoryReader.tsx:28 | the first page is exactly where going back would change nothing |
| `StoryReader.Reader.IsLastPage` | components/StoryReader.tsx:29 | the last page is exactly where going forward would change nothing |
| `StoryReader.Reader.CurrentPage` | components/StoryReader.tsx:38 | the displayed page is one of the story's pages |
| `StoryReader.Reader.PageCounter` | components/StoryReader.tsx:80-82 | the counter shows index + 1 of len, with index + 1 between 1 and len; it shows 1 exactly on the first page and len exactly on the last |
| `App.AppState.constructor` | App.tsx:8-10 | no story, not loading, no error |
| `App.AppState.HandleStoryGenerated` | App.tsx:12-16 | the story is stored, loading stops and the error is cleared |
| `App.AppState.HandleGenerationStart` | App.tsx:18-22 | loading starts, with no story and no error |
| `App.AppState.HandleGenerationError` | App.tsx:24-27 | the message is stored and loading stops; the story is left as it was |
| `App.AppState.HandleReset` | App.tsx:29-33 | story, error and loading are all cleared |
| `App.AppState.ShowsGenerator` | App.tsx:44-51 | the form is shown exactly when the reader is not |
| `App.AppState.ShowsLoading` | App.tsx:52-59 | the loading panel shows only while loading and under the form, and, in a valid state, exactly while loading |
| `App.AppState.ShowsError` | App.tsx:60-71 | the error panel shows exactly when there is a non-empty error message |
| `App.AppState.ShowsReader` | App.tsx:72 | the reader shows exactly when there is a story |
| `App.AppState.Panels` | App.tsx:44-72 | exactly one of form and reader shows; the loading panel only shows under the form, and shows exactly while loading |
| `StoryGenerator.TrimStart` | components/StoryGenerator.tsx:24 | the result is a suffix of the input, everything dropped is white space, and the result does not start with white space |
| `StoryGenerator.TrimEnd` | components/StoryGenerator.tsx:24 | the result is a prefix of the input, everything dropped is white space, and the result does not end with white space |
| `StoryGenerator.Trim` | components/StoryGenerator.tsx:24 | `prompt.trim()` is the slice of the prompt between its leading and trailing white space, and neither starts nor ends with white space |
| `StoryGenerator.BlankIffAllWhiteSpace` | components/StoryGenerator.tsx:24 | a prompt is rejected exactly when every character is white space to `trim` |
| `StoryGenerator.ErrorMessage` | components/StoryGenerator.tsx:32-37 | an `Error` forwards its own message; any other thrown value forwards "Bilinmeyen bir hata oluştu." |
| `StoryGenerator.RangeValue` | components/StoryGenerator.tsx:78-84 | the slider value always lies in [3, 10] and is the requested value whenever that is in range |
| `StoryGenerator.GeneratorForm.constructor` | components/StoryGenerator.tsx:18-20 | empty prompt and name, 5 pages |
| `StoryGenerator.GeneratorForm.SetPrompt` | components/StoryGenerator.tsx:48-56 | the prompt takes the typed value unless the field is disabled while loading |
| `StoryGenerator.GeneratorForm.SetChildName` | components/StoryGenerator.tsx:64-72 | the name takes the typed value unless the field is disabled while loading |
| `StoryGenerator.GeneratorForm.SetPageCount` | components/StoryGenerator.tsx:78-87 | the page count takes the slider value, always in [3, 10], unless the slider is disabled while loading |
| `StoryGenerator.GeneratorForm.Generate` | components/StoryGenerator.tsx:28-38 | after a non-blank prompt: start, then the request, then the generated story is stored, or the failure's fixed message is stored with no story; loading has stopped either way |
| `StoryGenerator.GeneratorForm.HandleSubmit` | components/StoryGenerator.tsx:22-39 | a blank prompt only reports "Lütfen bir masal konusu girin." and never signals start or requests generation; otherwise start, then the request, then the story is forwarded, or the failure's message is forwarded with no story shown |

## Left out

- GeminiService.GenerateImage: each generated image is a plain base 64 string. The SDK marks `image` and `imageBytes` as optional. A first entry without `image` throws inside the `try` and gives the fixed image error. An entry without `imageBytes` gives the URL `data:image/png;base64,undefined`. The model represents neither case.
- The Gemini network calls and the API key check (services/geminiService.ts:5-9, 56-63, 74-81, 95-106). They are foreign I/O. Each call is a parameter that either responds or throws.
- The response schema and `JSON.parse` (services/geminiService.ts:11-49, 64-65). The remote service enforces the schema. A structure call's response is the parsed story, or None when the text does not parse. Nothing guarantees that the page count asked for is the page count returned.
- The prompt texts sent to the model (services/geminiService.ts:52-53). They are part of the remote request. HandleSubmit records what it passes on: prompt, child's name and page count.
- `Promise.all` concurrency (services/geminiService.ts:136-140). Only the pairing of results by page index is modelled.
- Base64.Decode: accepts only well-formed input. That means length a multiple of four, alphabet characters only, and `=` padding only at the end. `atob` also accepts white space and missing padding; the model rejects those texts. On well-formed text the two give the same octets. Like `atob`, the model ignores leftover bits in the last character.
- AudioUtils.DecodeAudioData: `createBuffer` also rejects channel counts and sample rates outside what the browser supports, for example a rate of 100 Hz. Those limits vary by browser and are not modelled. The page player always asks for one channel at 24000 Hz.
- The Web Audio API (components/StoryPage.tsx:27-29, 83-96). `AudioContext` is a flag and a source is an abstract handle. The suspended-context `resume()` and the buffer a source plays are not modelled. Neither is the fact that each mounted player creates a context and never closes it.
- Single-precision rounding. Nothing is lost here: int16 / 32768, 0.75 and 1.5 are all exact in binary floating point.
- React scheduling. Each handler runs to completion as one step. That is sound because the only `await` inside `processAudio` resolves before any user event can run. State-setter batching is not modelled.
- StoryReader.Reader.constructor: a story with no pages is excluded. The source would render `story.pages[0]`, which does not exist.
- `page_number`, `page_count`, `estimated_duration_seconds` and `seed` are JavaScript numbers. They are modelled as integers.
- StoryGenerator.GeneratorForm.HandleSubmit: the returned steps list the callbacks in the order the method makes them. The root state does not record the calls it receives, so that order is stated for the steps list, not for effects the callees observe.
- JSX markup, styling, SVG, the image caption and `console.error` logging.

## Findings

| source | as written | input that shows it | evidently intended | confidence | as-written member | corrected member |
|---|---|---|---|---|---|---|
| utils/audioUtils.ts:23-35 | `frameCount` is a floating-point quotient. When the channel count does not divide the sample count, the loop runs one extra partial frame. That frame's higher channels read past the end of the view and store NaN | 6 bytes with `numChannels = 2`: 3 samples, and frame 1 of channel 1 reads index 3 | count whole frames only, so the partial frame stays silent | not executed; the app itself always decodes mono audio | `AudioUtils.PartialFrameReadsPastView` | `AudioUtils.DecodeAudioData` |
| components/StoryPage.tsx:87-102 | the `onended` callback clears the held source whichever source ended. That includes a source that pause already stopped, whose `ended` event arrives late. It can release a newer source that is still playing, and the next click then starts a second one beside it. After a page turn the cleanup finds no held source, so the old page's narration keeps playing under the new page and no button can stop it | play, pause, play, then the first source's `ended` event, then play: two sources audible; or, after the late event, turn the page: the old page's narration plays on | ignore the end of a source that is no longer the held one | not executed; needs the late `ended` event to land between two clicks | `StoryPage.StaleEndedAsWritten`, `StoryPage.StaleEndedThenPageTurn` | `StoryPage.PagePlayer.OnEnded` |
