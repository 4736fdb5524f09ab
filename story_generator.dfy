/** components/StoryGenerator.tsx: the form's fields and `handleSubmit`. */
module StoryGenerator {
  import opened Wrappers
  import opened StoryTypes
  import opened GeminiService
  import App

  const EmptyPromptMessage := "Lütfen bir masal konusu girin."
  const UnknownErrorMessage := "Bilinmeyen bir hata oluştu."
  const MinPages := 3
  const MaxPages := 10
  const DefaultPages := 5

  /** White space and line terminators as `String.prototype.trim` strips them:
      TAB, VT, FF, SPACE, NBSP, ZWNBSP, the other space separators, LF, CR,
      LINE SEPARATOR and PARAGRAPH SEPARATOR. */
  predicate IsTrimmed(c: char) {
    var n := c as int;
    n == 0x09 || n == 0x0A || n == 0x0B || n == 0x0C || n == 0x0D || n == 0x20
    || n == 0xA0 || n == 0x1680 || (0x2000 <= n <= 0x200A) || n == 0x2028 || n == 0x2029
    || n == 0x202F || n == 0x205F || n == 0x3000 || n == 0xFEFF
  }

  /** The suffix of `s` after its leading white space. */
  function TrimStart(s: string): (r: string)
    ensures |r| <= |s| && r == s[|s| - |r|..]
    ensures forall i :: 0 <= i < |s| - |r| ==> IsTrimmed(s[i])
    ensures r != "" ==> !IsTrimmed(r[0])
    decreases |s|
  {
    if s != "" && IsTrimmed(s[0]) then TrimStart(s[1..]) else s
  }

  /** The prefix of `s` before its trailing white space. */
  function TrimEnd(s: string): (r: string)
    ensures |r| <= |s| && r == s[..|r|]
    ensures forall i :: |r| <= i < |s| ==> IsTrimmed(s[i])
    ensures r != "" ==> !IsTrimmed(r[|r| - 1])
    decreases |s|
  {
    if s != "" && IsTrimmed(s[|s| - 1]) then TrimEnd(s[..|s| - 1]) else s
  }

  /** `prompt.trim()`: the slice of `s` between its leading and its trailing
      white space, which neither starts nor ends with white space. */
  function Trim(s: string): (r: string)
    ensures var k := |s| - |TrimStart(s)|;
      && k + |r| <= |s| && r == s[k..k + |r|]
      && (forall i :: 0 <= i < k ==> IsTrimmed(s[i]))
      && (forall i :: k + |r| <= i < |s| ==> IsTrimmed(s[i]))
    ensures r != "" ==> !IsTrimmed(r[0]) && !IsTrimmed(r[|r| - 1])
  {
    TrimEnd(TrimStart(s))
  }

  /** `!prompt.trim()` holds exactly when every character is white space. */
  lemma BlankIffAllWhiteSpace(s: string)
    ensures Trim(s) == "" <==> forall i :: 0 <= i < |s| ==> IsTrimmed(s[i])
  {
    var t := TrimStart(s);
    if Trim(s) == "" {
      assert t == "";
    }
    if forall i :: 0 <= i < |s| ==> IsTrimmed(s[i]) {
      if t != "" {
        assert t[0] == s[|s| - |t|];
      }
    }
  }

  /** The message handed to `onGenerationError` for a caught value. */
  function ErrorMessage(thrown: Thrown): (m: string)
    ensures thrown.ErrorObject? ==> m == thrown.message
    ensures thrown.OtherValue? ==> m == UnknownErrorMessage
  {
    match thrown
    case ErrorObject(message) => message
    case OtherValue => UnknownErrorMessage
  }

  /** What `handleSubmit` does, in order: the callbacks it invokes and the
      generation request it issues. */
  datatype SubmitStep =
    | GenerationError(message: string)
    | GenerationStart
    | GenerationRequest(prompt: string, childName: string, pageCount: int)
    | StoryGenerated(story: Story)

  /** The inputs and the submit button carry `disabled={isLoading}`. */
  function InputsEnabled(isLoading: bool): (enabled: bool) {
    !isLoading
  }

  /** `<input type="range" min="3" max="10">`: the browser keeps the value in range. */
  function RangeValue(raw: int): (v: int)
    ensures MinPages <= v <= MaxPages
    ensures MinPages <= raw <= MaxPages ==> v == raw
    ensures raw < MinPages ==> v == MinPages
    ensures raw > MaxPages ==> v == MaxPages
  {
    if raw < MinPages then MinPages else if raw > MaxPages then MaxPages else raw
  }

  class GeneratorForm {
    var prompt: string
    var childName: string
    var pageCount: int

    ghost predicate Valid()
      reads this
    {
      MinPages <= pageCount <= MaxPages
    }

    constructor ()
      ensures Valid() && prompt == "" && childName == "" && pageCount == DefaultPages
    {
      prompt := "";
      childName := "";
      pageCount := DefaultPages;
    }

    /** Typing into the prompt field; a disabled field ignores input. */
    method SetPrompt(value: string, isLoading: bool)
      requires Valid()
      modifies this
      ensures Valid() && childName == old(childName) && pageCount == old(pageCount)
      ensures prompt == if InputsEnabled(isLoading) then value else old(prompt)
    {
      if InputsEnabled(isLoading) {
        prompt := value;
      }
    }

    method SetChildName(value: string, isLoading: bool)
      requires Valid()
      modifies this
      ensures Valid() && prompt == old(prompt) && pageCount == old(pageCount)
      ensures childName == if InputsEnabled(isLoading) then value else old(childName)
    {
      if InputsEnabled(isLoading) {
        childName := value;
      }
    }

    /** `setPageCount(Number(e.target.value))` from the slider. */
    method SetPageCount(raw: int, isLoading: bool)
      requires Valid()
      modifies this
      ensures Valid() && prompt == old(prompt) && childName == old(childName)
      ensures pageCount == if InputsEnabled(isLoading) then RangeValue(raw) else old(pageCount)
    {
      if InputsEnabled(isLoading) {
        pageCount := RangeValue(raw);
      }
    }

    /** `handleSubmit`, with the remote calls of `generateStoryWithAssets` as
        parameters. A blank prompt only reports an error. Otherwise the start
        is signalled, then generation is requested, and its story or its
        error's message is forwarded to the root state. The form can only be
        submitted while its button is enabled. */
    method HandleSubmit(app: App.AppState,
                        structure: RemoteCall<Option<Story>>,
                        images: (nat, string) -> RemoteCall<Option<seq<string>>>,
                        audio: (nat, string) -> RemoteCall<Option<string>>)
      returns (steps: seq<SubmitStep>)
      requires Valid() && app.Valid() && InputsEnabled(app.isLoading)
      modifies app
      ensures app.Valid() && !app.isLoading
      ensures Trim(prompt) == "" ==>
        && steps == [GenerationError(EmptyPromptMessage)]
        && app.error == Some(EmptyPromptMessage) && app.story == old(app.story)
      ensures Trim(prompt) != "" ==>
        var outcome := GenerateStoryWithAssets(structure, images, audio);
        && |steps| == 3
        && steps[..2] == [GenerationStart, GenerationRequest(prompt, childName, pageCount)]
        && (outcome.Success? ==>
              steps[2] == StoryGenerated(outcome.value)
              && app.story == Some(outcome.value) && app.error.None?)
        && (outcome.Failure? ==>
              steps[2] == GenerationError(StoryFailedMessage)
              && app.story.None? && app.error == Some(StoryFailedMessage))
    {
      if Trim(prompt) == "" {
        app.HandleGenerationError(EmptyPromptMessage);
        return [GenerationError(EmptyPromptMessage)];
      }
      steps := Generate(app, structure, images, audio);
    }

    /** The non-blank path of `handleSubmit`: start, request, then forward
        the story or the error's message. */
    method Generate(app: App.AppState,
                    structure: RemoteCall<Option<Story>>,
                    images: (nat, string) -> RemoteCall<Option<seq<string>>>,
                    audio: (nat, string) -> RemoteCall<Option<string>>)
      returns (steps: seq<SubmitStep>)
      requires app.Valid()
      modifies app
      ensures app.Valid() && !app.isLoading
      ensures
        var outcome := GenerateStoryWithAssets(structure, images, audio);
        && |steps| == 3
        && steps[..2] == [GenerationStart, GenerationRequest(prompt, childName, pageCount)]
        && (outcome.Success? ==>
              steps[2] == StoryGenerated(outcome.value)
              && app.story == Some(outcome.value) && app.error.None?)
        && (outcome.Failure? ==>
              steps[2] == GenerationError(StoryFailedMessage)
              && app.story.None? && app.error == Some(StoryFailedMessage))
    {
      app.HandleGenerationStart();
      var outcome := GenerateStoryWithAssets(structure, images, audio);
      match outcome
      case Success(story) =>
        app.HandleStoryGenerated(story);
        steps := [GenerationStart, GenerationRequest(prompt, childName, pageCount), StoryGenerated(story)];
      case Failure(thrown) =>
        var message := ErrorMessage(thrown);
        app.HandleGenerationError(message);
        steps := [GenerationStart, GenerationRequest(prompt, childName, pageCount), GenerationError(message)];
    }
  }
}
