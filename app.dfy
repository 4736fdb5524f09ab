/** App.tsx: the root state (`story`, `isLoading`, `error`), its four
    handlers, and which panels are shown. */
module App {
  import opened Wrappers
  import opened StoryTypes

  class AppState {
    var story: Option<Story>
    var isLoading: bool
    var error: Option<string>

    /** Loading only ever happens while there is no story. */
    ghost predicate Valid()
      reads this
    {
      isLoading ==> story.None?
    }

    constructor ()
      ensures Valid() && story.None? && !isLoading && error.None?
    {
      story := None;
      isLoading := false;
      error := None;
    }

    method HandleStoryGenerated(generatedStory: Story)
      requires Valid()
      modifies this
      ensures Valid() && story == Some(generatedStory) && !isLoading && error.None?
    {
      story := Some(generatedStory);
      isLoading := false;
      error := None;
    }

    method HandleGenerationStart()
      requires Valid()
      modifies this
      ensures Valid() && story.None? && isLoading && error.None?
    {
      isLoading := true;
      story := None;
      error := None;
    }

    /** The story is left as it was. */
    method HandleGenerationError(errorMessage: string)
      requires Valid()
      modifies this
      ensures Valid() && error == Some(errorMessage) && !isLoading && story == old(story)
    {
      error := Some(errorMessage);
      isLoading := false;
    }

    method HandleReset()
      requires Valid()
      modifies this
      ensures Valid() && story.None? && error.None? && !isLoading
    {
      story := None;
      error := None;
      isLoading := false;
    }

    /** `{!story && <StoryGenerator .../>}` */
    function ShowsGenerator(): (shown: bool)
      reads this
      ensures shown <==> !ShowsReader()
    {
      story.None?
    }

    /** `{isLoading && !story && ...}` */
    function ShowsLoading(): (shown: bool)
      reads this
      ensures shown ==> isLoading && ShowsGenerator()
      ensures Valid() ==> (shown <==> isLoading)
    {
      isLoading && story.None?
    }

    /** `{error && ...}`: an empty message is falsy and shows nothing. */
    function ShowsError(): (shown: bool)
      reads this
      ensures shown <==> error.Some? && |error.value| > 0
    {
      Truthy(error)
    }

    /** `{story && <StoryReader .../>}` */
    function ShowsReader(): (shown: bool)
      reads this
      ensures shown <==> story.Some?
    {
      story.Some?
    }

    /** Exactly one of the form and the reader is on screen; the loading panel
        only ever appears under the form, and in a valid state it shows
        exactly while loading. */
    lemma Panels()
      requires Valid()
      ensures ShowsGenerator() != ShowsReader()
      ensures ShowsLoading() ==> ShowsGenerator()
      ensures ShowsLoading() <==> isLoading
    {
    }
  }
}
