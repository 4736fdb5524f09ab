/** components/StoryPage.tsx: the per-page audio player. Its React state
    (`audioBuffer`, `isProcessingAudio`, `isPlaying`, `error`) and refs
    (`audioContextRef`, `audioSourceRef`) are the fields of PagePlayer; each
    handler is a method. Web Audio sources are abstract handles: a source is
    its index in `sourceRates`, and the player also records which sources are
    audible, connected, and still owe their `ended` event. */
module StoryPage {
  import opened Wrappers
  import opened StoryTypes
  import Base64
  import opened AudioUtils

  const NoAudioMessage := "Ses verisi bulunamadı."
  const DecodeFailedMessage := "Ses verisi işlenemedi."
  const NoImageMessage := "Resim oluşturulamadı."
  const PageSampleRate := 24000
  const PageChannels := 1

  type SourceId = nat

  /** The buffer `processAudio` builds from an audio payload, when it builds one:
      base 64 decoding, then mono 24 kHz PCM. */
  ghost predicate DecodesTo(payload: string, buffer: AudioBuffer)
    reads buffer.channelData
  {
    && Base64.Decode(payload).Some?
    && var view := Int16View(Base64.Decode(payload).value);
    && buffer.Valid()
    && buffer.numberOfChannels == PageChannels
    && buffer.sampleRate == PageSampleRate
    && buffer.length == |view| + PaddingFrames(PageSampleRate)
    && forall i :: 0 <= i < buffer.length ==> buffer.channelData[0, i] == Sample(view, PageChannels, 0, i)
  }

  class PagePlayer {
    var audioBuffer: Option<AudioBuffer>
    var isProcessingAudio: bool
    var isPlaying: bool
    var audioError: Option<string>    // `error.audio`
    var imageError: Option<string>    // `error.image`
    var hasAudioContext: bool         // `audioContextRef.current` is set
    var audioSource: Option<SourceId> // `audioSourceRef.current`

    var sourceRates: seq<real>        // the playback rate of every source created
    var audible: set<SourceId>        // started and neither stopped nor finished
    var connected: set<SourceId>      // connected to the destination
    var endPending: set<SourceId>     // whose `ended` event is still to come

    function HeldSources(): set<SourceId>
      reads this
    {
      if audioSource.Some? then {audioSource.value} else {}
    }

    /** `isPlaying` is true exactly when a source is held, and the bookkeeping
        only names sources that were created. */
    ghost predicate Consistent()
      reads this
    {
      && (isPlaying <==> audioSource.Some?)
      && (audioSource.Some? ==> audioSource.value < |sourceRates|)
      && audible <= endPending
      && (forall s :: s in endPending ==> s < |sourceRates|)
      && (forall s :: s in connected ==> s < |sourceRates|)
    }

    /** At most one source is audible, and it is the held one. */
    ghost predicate SingleSource()
      reads this
    {
      audible <= HeldSources()
    }

    ghost predicate Valid()
      reads this
    {
      Consistent() && SingleSource()
    }

    /** The disabled state of the play button is its negation. */
    function PlayEnabled(): (enabled: bool)
      reads this
      ensures enabled ==> audioBuffer.Some? && !isProcessingAudio
      ensures !isProcessingAudio ==> (enabled <==> audioBuffer.Some?)
    {
      !isProcessingAudio && audioBuffer.Some?
    }

    /** Mounting: the initial state, then the effect for `page`. */
    constructor Mount(page: Page)
      ensures Valid()
      ensures hasAudioContext && audioSource.None? && !isPlaying && !isProcessingAudio
      ensures sourceRates == [] && audible == {} && connected == {} && endPending == {}
      ensures imageError == if HasImage(page) then None else Some(NoImageMessage)
      ensures AudioOutcome(page)
    {
      audioBuffer := None;
      isProcessingAudio := true;
      isPlaying := false;
      audioError := None;
      imageError := None;
      hasAudioContext := false;
      audioSource := None;
      sourceRates := [];
      audible := {};
      connected := {};
      endPending := {};
      new;
      RunEffect(page);
    }

    /** Where `processAudio` leaves the buffer, the error and the play button. */
    ghost predicate AudioOutcome(page: Page)
      reads this, if audioBuffer.Some? then {audioBuffer.value.channelData} else {}
    {
      && !isProcessingAudio && !isPlaying
      && (!Truthy(page.audio_url) ==> audioBuffer.None? && audioError == Some(NoAudioMessage))
      && (Truthy(page.audio_url) && (Base64.Decode(page.audio_url.value).None? || !hasAudioContext) ==>
            audioBuffer.None? && audioError == Some(DecodeFailedMessage))
      && (Truthy(page.audio_url) && Base64.Decode(page.audio_url.value).Some? && hasAudioContext ==>
            audioBuffer.Some? && audioError.None? && DecodesTo(page.audio_url.value, audioBuffer.value))
      && (PlayEnabled() <==> audioBuffer.Some?)
    }

    /** The effect body for `page`: create the audio context if there is none,
        record a missing image, then `processAudio`. React runs it on mount and,
        after the cleanup, whenever `page` changes, so no source is held. */
    method RunEffect(page: Page)
      requires Consistent() && audioSource.None?
      modifies this
      ensures Consistent() && (old(SingleSource()) ==> SingleSource())
      ensures hasAudioContext && audioSource.None?
      ensures imageError == if HasImage(page) then old(imageError) else Some(NoImageMessage)
      ensures sourceRates == old(sourceRates) && audible == old(audible)
      ensures connected == old(connected) && endPending == old(endPending)
      ensures AudioOutcome(page)
    {
      if !hasAudioContext {
        hasAudioContext := true;
      }
      if !HasImage(page) {
        imageError := Some(NoImageMessage);
      }
      ProcessAudio(page);
    }

    /** `processAudio`: reset, then decode the page's payload. A missing payload
        and a failed decode set their messages; all paths end not processing. */
    method ProcessAudio(page: Page)
      requires Consistent() && audioSource.None?
      modifies this
      ensures Consistent() && (old(SingleSource()) ==> SingleSource())
      ensures audioSource.None?
      ensures hasAudioContext == old(hasAudioContext) && imageError == old(imageError)
      ensures sourceRates == old(sourceRates) && audible == old(audible)
      ensures connected == old(connected) && endPending == old(endPending)
      ensures AudioOutcome(page)
    {
      isProcessingAudio := true;
      audioBuffer := None;
      audioError := None;
      isPlaying := false;

      if !Truthy(page.audio_url) {
        audioError := Some(NoAudioMessage);
        isProcessingAudio := false;
        return;
      }

      var decodedBytes := Decode(page.audio_url.value);
      if decodedBytes.Failure? || !hasAudioContext {
        audioError := Some(DecodeFailedMessage);
      } else {
        // `createBuffer` accepts one channel at 24000 Hz, so this call succeeds.
        var buffer := DecodeAudioData(decodedBytes.value, PageSampleRate, PageChannels);
        audioBuffer := Some(buffer.value);
      }
      isProcessingAudio := false;
    }

    /** `handlePlayPause`. Without a context or a buffer nothing changes. When
        playing with a held source, the source is stopped and released (it
        stays connected, and its `ended` event is still to come). Otherwise one
        new source is created at `playbackRate`, connected, started and held.
        It keeps SingleSource, but only requires Consistent, so that it also
        applies after OnEndedAsWritten. */
    method PlayPause(playbackRate: real)
      requires Consistent()
      modifies this
      ensures Consistent()
      ensures old(SingleSource()) ==> SingleSource()
      ensures audioBuffer == old(audioBuffer) && isProcessingAudio == old(isProcessingAudio)
      ensures audioError == old(audioError) && imageError == old(imageError)
      ensures hasAudioContext == old(hasAudioContext)
      ensures !old(hasAudioContext) || old(audioBuffer).None? ==>
        && isPlaying == old(isPlaying) && audioSource == old(audioSource)
        && sourceRates == old(sourceRates) && audible == old(audible)
        && connected == old(connected) && endPending == old(endPending)
      ensures old(hasAudioContext) && old(audioBuffer).Some? && old(isPlaying) ==>
        && !isPlaying && audioSource.None?
        && sourceRates == old(sourceRates) && audible == old(audible) - old(HeldSources())
        && connected == old(connected) && endPending == old(endPending)
      ensures old(hasAudioContext) && old(audioBuffer).Some? && !old(isPlaying) ==>
        var id := |old(sourceRates)|;
        && isPlaying && audioSource == Some(id)
        && sourceRates == old(sourceRates) + [playbackRate]
        && audible == old(audible) + {id}
        && connected == old(connected) + {id}
        && endPending == old(endPending) + {id}
    {
      if !hasAudioContext || audioBuffer.None? {
        return;
      }
      if isPlaying && audioSource.Some? {
        audible := audible - {audioSource.value};
        audioSource := None;
        isPlaying := false;
      } else {
        var source := |sourceRates|;
        sourceRates := sourceRates + [playbackRate];
        connected := connected + {source};
        audible := audible + {source};
        endPending := endPending + {source};
        audioSource := Some(source);
        isPlaying := true;
      }
    }

    /** The `onended` callback of source `s`, with the identity check that keeps
        a stopped source's late event from releasing a newer source: only when
        `s` is still the held source does it clear it and stop playing. */
    method OnEnded(s: SourceId)
      requires Valid() && s in endPending
      modifies this
      ensures Valid()
      ensures audible == old(audible) - {s} && endPending == old(endPending) - {s}
      ensures sourceRates == old(sourceRates) && connected == old(connected)
      ensures audioBuffer == old(audioBuffer) && isProcessingAudio == old(isProcessingAudio)
      ensures audioError == old(audioError) && imageError == old(imageError)
      ensures hasAudioContext == old(hasAudioContext)
      ensures old(audioSource) == Some(s) ==> audioSource.None? && !isPlaying
      ensures old(audioSource) != Some(s) ==> audioSource == old(audioSource) && isPlaying == old(isPlaying)
    {
      audible := audible - {s};
      endPending := endPending - {s};
      if audioSource == Some(s) {
        isPlaying := false;
        audioSource := None;
      }
    }

    /** The `onended` callback as written: it clears whatever source is held,
        even when the event belongs to an earlier, already stopped source. It
        keeps `isPlaying` in step with the held source, but not SingleSource. */
    method OnEndedAsWritten(s: SourceId)
      requires Consistent() && s in endPending
      modifies this
      ensures Consistent()
      ensures audible == old(audible) - {s} && endPending == old(endPending) - {s}
      ensures sourceRates == old(sourceRates) && connected == old(connected)
      ensures audioBuffer == old(audioBuffer) && isProcessingAudio == old(isProcessingAudio)
      ensures audioError == old(audioError) && imageError == old(imageError)
      ensures hasAudioContext == old(hasAudioContext)
      ensures audioSource.None? && !isPlaying
    {
      audible := audible - {s};
      endPending := endPending - {s};
      isPlaying := false;
      audioSource := None;
    }

    /** The effect cleanup, on unmount or before the effect runs again: a held
        source is stopped, disconnected and released, and playing stops. Only
        the held source is reached: after the as-written `onended` has
        released a source that is still audible, that source keeps playing. */
    method Cleanup()
      requires Consistent()
      modifies this
      ensures Consistent() && (old(SingleSource()) ==> SingleSource())
      ensures audioSource.None? && !isPlaying
      ensures audible == old(audible) - old(HeldSources())
      ensures connected == old(connected) - old(HeldSources())
      ensures sourceRates == old(sourceRates) && endPending == old(endPending)
      ensures audioBuffer == old(audioBuffer) && isProcessingAudio == old(isProcessingAudio)
      ensures audioError == old(audioError) && imageError == old(imageError)
      ensures hasAudioContext == old(hasAudioContext)
      ensures old(SingleSource()) ==> audible == {}
    {
      if audioSource.Some? {
        audible := audible - {audioSource.value};
        connected := connected - {audioSource.value};
        audioSource := None;
        isPlaying := false;
      }
    }

    /** A new `page` for the same mounted player: the cleanup, then the effect. */
    method ChangePage(page: Page)
      requires Consistent()
      modifies this
      ensures Consistent() && (old(SingleSource()) ==> SingleSource())
      ensures hasAudioContext && audioSource.None?
      ensures audible == old(audible) - old(HeldSources())
      ensures old(SingleSource()) ==> audible == {}
      ensures connected == old(connected) - old(HeldSources())
      ensures sourceRates == old(sourceRates) && endPending == old(endPending)
      ensures imageError == if HasImage(page) then old(imageError) else Some(NoImageMessage)
      ensures AudioOutcome(page)
    {
      Cleanup();
      RunEffect(page);
    }
  }

  /** A page whose audio payload is the encoding of three zero bytes: one
      silent sample and a trailing byte. */
  function SilentPage(): (p: Page)
    ensures Truthy(p.audio_url) && Base64.Decode(p.audio_url.value) == Some([0, 0, 0])
  {
    Base64.RoundTrip([0, 0, 0]);
    Page(1, "", "", "", ImageMetadata("", FourByThree, None), Some(Base64.Encode([0, 0, 0])), Null)
  }

  /** Play, pause, play again, and then the late `ended` event of the first
      (stopped) source arrives before the next click. With the as-written
      callback, the next click starts a third source while the second is
      still audible: two sources play at once. */
  method StaleEndedAsWritten() returns (audibleAtOnce: nat)
    ensures audibleAtOnce == 2
  {
    var player := new PagePlayer.Mount(SilentPage());
    assert player.hasAudioContext && player.audioBuffer.Some?;
    player.PlayPause(1.0);      // source 0 starts
    assert player.audioSource == Some(0);
    player.PlayPause(1.0);      // source 0 stopped
    assert player.audible == {} && player.endPending == {0};
    player.PlayPause(1.0);      // source 1 starts
    assert player.audible == {1} && player.endPending == {0, 1};
    player.OnEndedAsWritten(0); // late event of source 0 releases source 1
    assert player.audible == {1} && !player.isPlaying;
    assert |player.sourceRates| == 2 && player.hasAudioContext && player.audioBuffer.Some?;
    player.PlayPause(1.0);      // source 2 starts beside source 1
    assert player.audible == {1, 2};
    audibleAtOnce := |player.audible|;
  }

  /** The same events with the identity-checked callback: the late event is
      ignored, the next click pauses source 1, and nothing is left playing. */
  method StaleEndedCorrected() returns (audibleAtOnce: nat)
    ensures audibleAtOnce == 0
  {
    var player := new PagePlayer.Mount(SilentPage());
    assert player.hasAudioContext && player.audioBuffer.Some?;
    player.PlayPause(1.0);
    assert player.audioSource == Some(0);
    player.PlayPause(1.0);
    assert player.audible == {} && player.endPending == {0};
    player.PlayPause(1.0);
    assert player.audible == {1} && player.endPending == {0, 1};
    player.OnEnded(0);
    assert player.audioSource == Some(1) && player.isPlaying;
    player.PlayPause(1.0);
    assert player.audible == {};
    audibleAtOnce := |player.audible|;
  }

  /** The same race, followed by a page turn. The reader remounts the player
      for every page, so the old player's cleanup runs and a new player is
      mounted. The cleanup finds no held source and stops nothing, so source 1
      of the old page keeps playing. The new player holds no source, and none
      of its controls can reach that one. */
  method StaleEndedThenPageTurn(nextPage: Page) returns (stillAudible: set<SourceId>, nextHeld: Option<SourceId>)
    ensures stillAudible == {1} && nextHeld.None?
  {
    var player := new PagePlayer.Mount(SilentPage());
    assert player.hasAudioContext && player.audioBuffer.Some?;
    player.PlayPause(1.0);      // source 0 starts
    player.PlayPause(1.0);      // source 0 stopped
    player.PlayPause(1.0);      // source 1 starts
    assert player.audible == {1} && player.endPending == {0, 1};
    player.OnEndedAsWritten(0); // late event of source 0 releases source 1
    assert player.audible == {1} && player.audioSource.None?;
    player.Cleanup();           // page turn: the old player unmounts
    var next := new PagePlayer.Mount(nextPage);
    stillAudible, nextHeld := player.audible, next.audioSource;
  }
}
