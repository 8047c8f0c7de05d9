/** The page component's handlers (src/app/page.tsx).

    The component's state is one `AppState` value that every handler
    replaces with an updated copy; the abort controller lives beside it in a
    ref that the next generation overwrites. `handleGenerate` awaits the
    retry orchestrator, so it is split at the await into `BeginGenerate` and
    `FinishGenerate`: other handlers, `HandleAbort` in particular, may run
    between the two. `HandleGenerate` is the run with nothing in between. */
module Page {
  import opened Types
  import opened Strings
  import opened Api
  import opened LocalStorage

  const MissingInputError := "Please upload an image and enter a prompt before generating."
  const CancelledError := "Generation cancelled"
  const GenerateFailedError := "Failed to generate image"

  /** How many earlier generations the in-memory history keeps after a new one. */
  const KeptInMemory: nat := 4

  /** The state before the mount effect has run. */
  const InitialState := AppState(None, "", Editorial, false, [], None, None)

  /** The guard of `handleGenerate`: an image is uploaded and the prompt is
      not blank. */
  predicate PromptReady(s: AppState) {
    s.uploadedImage.Some? && Trim(s.prompt) != []
  }

  /** `canGenerate`, what enables the generate button: the guard of
      `handleGenerate`, and no generation in progress. */
  predicate CanGenerate(s: AppState) {
    PromptReady(s) && !s.isGenerating
  }

  /** The button is enabled exactly when an image is uploaded, some
      character of the prompt is not whitespace, and nothing is generating. */
  lemma CanGenerateMeans(s: AppState)
    ensures CanGenerate(s) <==>
              && s.uploadedImage.Some?
              && (exists i :: 0 <= i < |s.prompt| && !IsJsWhitespace(s.prompt[i]))
              && !s.isGenerating
  {
  }

  /** The request a generation sends: the uploaded image's data URL, the
      prompt as typed (not trimmed) and the style's name. */
  function RequestFor(s: AppState): (r: GenerationRequest)
    requires s.uploadedImage.Some?
    ensures r.prompt == s.prompt && r.imageDataUrl == s.uploadedImage.value.dataUrl
    ensures r.style == StyleName(s.style)
  {
    GenerationRequest(s.uploadedImage.value.dataUrl, s.prompt, StyleName(s.style))
  }

  /** The state once a generation has started. */
  function Started(s: AppState): AppState {
    s.(isGenerating := true, error := None)
  }

  /** The message the page shows for a rejected await: an `Error`'s message,
      or a fixed text for anything else thrown. */
  function ThrownMessage(t: Thrown): string {
    match t
    case ErrorObject(m) => m
    case NonError => GenerateFailedError
  }

  /** The state once the awaited call has settled: on success the new
      generation is shown and put in front of the first four earlier ones
      and the form is reset; on a failure result, or a rejection, its
      message is shown. Either way the page stops generating; the error
      shown before is kept on success. */
  function Settled(s: AppState, outcome: AttemptOutcome): AppState {
    match outcome
    case Returned(Success(g)) =>
      s.(currentGeneration := Some(g),
         generationHistory := [g] + Take(s.generationHistory, KeptInMemory),
         isGenerating := false,
         uploadedImage := None,
         prompt := "",
         style := Editorial)
    case Returned(Failure(m)) => s.(error := Some(m), isGenerating := false)
    case Threw(t) => s.(error := Some(ThrownMessage(t)), isGenerating := false)
  }

  /** A success shows its generation, puts it first in a history of at most
      five with the earlier entries after it in order, clears the form, and
      so leaves the button disabled until a new image is uploaded. Everything
      else in the state is kept. */
  lemma SuccessResetsForm(s: AppState, g: Generation)
    ensures
      var t := Settled(s, Returned(Success(g)));
      && t.currentGeneration == Some(g)
      && 1 <= |t.generationHistory| <= KeptInMemory + 1
      && t.generationHistory[0] == g
      && (forall i :: 1 <= i < |t.generationHistory| ==> t.generationHistory[i] == s.generationHistory[i - 1])
      && (|s.generationHistory| >= KeptInMemory ==> |t.generationHistory| == KeptInMemory + 1)
      && t.uploadedImage == None && t.prompt == [] && t.style == Editorial
      && !t.isGenerating && !CanGenerate(t)
      && t.error == s.error
  {
  }

  /** A failed generation keeps the form: the button is enabled again
      exactly when the guard held when it started, so the user can retry. */
  lemma {:induction false} FailureKeepsForm(s: AppState, outcome: AttemptOutcome)
    requires !Succeeded(outcome)
    ensures
      var t := Settled(Started(s), outcome);
      && t.error == Some(FailureMessageShown(outcome))
      && t.uploadedImage == s.uploadedImage && t.prompt == s.prompt && t.style == s.style
      && t.generationHistory == s.generationHistory
      && t.currentGeneration == s.currentGeneration
      && (CanGenerate(t) <==> PromptReady(s))
  {
  }

  /** The message a failed outcome leaves on the page. It agrees with the
      orchestrator's `lastError` except for a thrown non-`Error`, which the
      page words differently. */
  function FailureMessageShown(outcome: AttemptOutcome): (m: string)
    requires !Succeeded(outcome)
    ensures outcome != Threw(NonError) ==> m == FailureMessage(outcome)
    ensures outcome == Threw(NonError) ==> m == GenerateFailedError && m != UnknownErrorMessage
  {
    match outcome
    case Returned(r) => r.message
    case Threw(t) => ThrownMessage(t)
  }

  /** The in-memory history after a success, `[g] + first four`, equals the
      stored one after the save, `take(5, [g] + history)`: a page whose history
      agreed with the store still does. */
  lemma {:induction false} MemoryMatchesStoredHistory(h: seq<Generation>, g: Generation)
    ensures [g] + Take(h, KeptInMemory) == Take([g] + h, MaxHistoryItems)
  {
    if |h| > KeptInMemory {
      assert ([g] + h)[..MaxHistoryItems] == [g] + h[..KeptInMemory];
    }
  }

  class Home {
    var state: AppState
    /** Whether the ref holds a controller; it is never reset to null. */
    var hasController: bool
    /** Whether the controller in the ref has been aborted. */
    var aborted: bool
    const store: HistoryStore

    /** While the page shows a generation in progress, the controller of
        that generation exists and has not been aborted. */
    predicate Valid()
      reads this
    {
      state.isGenerating ==> hasController && !aborted
    }

    /** The page agrees with the store: its history is what a successful
        read of the store gives. */
    predicate InSync()
      reads this, store
    {
      state.generationHistory == GetGenerationHistory(store.stored, false)
    }

    /** The first render followed by the mount effect, which loads the
        history from the store. */
    constructor (store: HistoryStore, readFails: bool)
      ensures this.store == store && Valid()
      ensures state == InitialState.(generationHistory := GetGenerationHistory(store.stored, readFails))
      ensures !hasController && !aborted
      ensures !readFails ==> InSync()
    {
      this.store := store;
      hasController, aborted := false, false;
      state := InitialState.(generationHistory := GetGenerationHistory(store.stored, readFails));
    }

    /** `handleImageUpload`: shows the accepted image and clears the error. */
    method HandleImageUpload(image: UploadedImage)
      requires Valid()
      modifies this
      ensures Valid() && unchanged(this`hasController, this`aborted)
      ensures state == old(state).(uploadedImage := Some(image), error := None)
    {
      state := state.(uploadedImage := Some(image), error := None);
    }

    /** `handleImageError`: shows the upload's error. */
    method HandleImageError(error: string)
      requires Valid()
      modifies this
      ensures Valid() && unchanged(this`hasController, this`aborted)
      ensures state == old(state).(error := Some(error))
    {
      state := state.(error := Some(error));
    }

    method HandlePromptChange(prompt: string)
      requires Valid()
      modifies this
      ensures Valid() && unchanged(this`hasController, this`aborted)
      ensures state == old(state).(prompt := prompt)
    {
      state := state.(prompt := prompt);
    }

    method HandleStyleChange(style: StyleOption)
      requires Valid()
      modifies this
      ensures Valid() && unchanged(this`hasController, this`aborted)
      ensures state == old(state).(style := style)
    {
      state := state.(style := style);
    }

    /** `handleGenerate` up to its await. Without an image or with a blank
        prompt it only shows an error; otherwise it installs a fresh
        controller, marks the page as generating and returns the request.
        It does not look at `isGenerating`. */
    method BeginGenerate() returns (request: Option<GenerationRequest>)
      requires Valid()
      modifies this
      ensures Valid()
      ensures request.Some? <==> PromptReady(old(state))
      ensures request.None? ==>
                && state == old(state).(error := Some(MissingInputError))
                && unchanged(this`hasController, this`aborted)
      ensures request.Some? ==>
                && request.value == RequestFor(old(state))
                && state == Started(old(state))
                && hasController && !aborted
    {
      if !PromptReady(state) {
        state := state.(error := Some(MissingInputError));
        return None;
      }
      hasController, aborted := true, false;
      request := Some(RequestFor(state));
      state := Started(state);
    }

    /** `handleGenerate` after its await: a success is saved to the store
        and shown; a failure or a rejection is shown. It runs whether or not
        the generation was cancelled meanwhile. */
    method FinishGenerate(outcome: AttemptOutcome, readFails: bool, writeFails: bool)
      requires Valid()
      modifies this, store
      ensures Valid() && unchanged(this`hasController, this`aborted)
      ensures state == Settled(old(state), outcome)
      ensures store.stored == match outcome
                              case Returned(Success(g)) =>
                                if writeFails then old(store.stored) else SavedSnapshot(old(store.stored), g, readFails)
                              case _ => old(store.stored)
      ensures old(InSync()) && !readFails && !writeFails ==> InSync()
    {
      match outcome
      case Returned(Success(g)) =>
        store.SaveGeneration(g, readFails, writeFails);
        MemoryMatchesStoredHistory(state.generationHistory, g);
        state := Settled(state, outcome);
      case _ =>
        state := Settled(state, outcome);
    }

    /** `handleGenerate` with nothing happening during the await: the
        request goes to the orchestrator with the default configuration and
        a signal nobody aborts, and its result settles the page. */
    method HandleGenerate(client: GenerationRequest -> nat -> AttemptOutcome, readFails: bool, writeFails: bool)
      returns (result: Option<APIResult>, calls: nat, delays: seq<int>)
      requires Valid()
      modifies this, store
      ensures Valid()
      ensures result.Some? <==> PromptReady(old(state))
      ensures result.None? ==>
                && state == old(state).(error := Some(MissingInputError))
                && store.stored == old(store.stored)
                && unchanged(this`hasController, this`aborted)
      ensures result.Some? ==>
                && RetryOutcome(DefaultRetryConfig, client(RequestFor(old(state))), Never, result.value, calls, delays)
                && state == Settled(Started(old(state)), Returned(result.value))
                && hasController && !aborted
                && store.stored == if result.value.Success? && !writeFails
                                   then SavedSnapshot(old(store.stored), result.value.data, readFails)
                                   else old(store.stored)
      ensures old(InSync()) && !readFails && !writeFails ==> InSync()
    {
      var request := BeginGenerate();
      calls, delays := 0, [];
      if request.None? {
        return None, calls, delays;
      }
      var r;
      r, calls, delays := GenerateImageWithRetry(DefaultRetryConfig, client(request.value), Never);
      FinishGenerate(Returned(r), readFails, writeFails);
      result := Some(r);
    }

    /** `handleAbort`: with a controller in the ref, aborts it, stops
        generating and shows the cancellation; with none, nothing happens.
        The ref is not cleared, so a later cancel aborts the same controller
        again. */
    method HandleAbort()
      requires Valid()
      modifies this
      ensures Valid()
      ensures old(hasController) ==>
                && hasController && aborted
                && state == old(state).(isGenerating := false, error := Some(CancelledError))
      ensures !old(hasController) ==> unchanged(this)
      ensures old(state.isGenerating) ==> !state.isGenerating && state.error == Some(CancelledError)
    {
      if hasController {
        aborted := true;
        state := state.(isGenerating := false, error := Some(CancelledError));
      }
    }

    /** `handleSelectGeneration`: shows a generation from the history. */
    method HandleSelectGeneration(generation: Generation)
      requires Valid()
      modifies this
      ensures Valid() && unchanged(this`hasController, this`aborted)
      ensures state == old(state).(currentGeneration := Some(generation), error := None)
    {
      state := state.(currentGeneration := Some(generation), error := None);
    }

    /** `handleClearHistory`: clears the store and the page's history. The
        page's list is emptied even when the removal fails. */
    method HandleClearHistory(fails: bool)
      requires Valid()
      modifies this, store
      ensures Valid() && unchanged(this`hasController, this`aborted)
      ensures state == old(state).(generationHistory := [])
      ensures store.stored == if fails then old(store.stored) else None
      ensures !fails ==> InSync()
    {
      store.ClearGenerationHistory(fails);
      state := state.(generationHistory := []);
    }

    /** `handleRemoveImage`: drops the uploaded image. */
    method HandleRemoveImage()
      requires Valid()
      modifies this
      ensures Valid() && unchanged(this`hasController, this`aborted)
      ensures state == old(state).(uploadedImage := None)
      ensures !CanGenerate(state)
    {
      state := state.(uploadedImage := None);
    }
  }

  /** A cancel during the await does not stop a success from being shown
      and saved: the cancellation message stays on the page beside the new
      generation, which heads the stored history. */
  method CancelThenSuccess(store: HistoryStore, image: UploadedImage, prompt: string, g: Generation)
    returns (home: Home)
    requires Trim(prompt) != []
    modifies store
    ensures home.state.currentGeneration == Some(g)
    ensures home.state.error == Some(CancelledError)
    ensures !home.state.isGenerating && home.aborted
    ensures home.store == store
    ensures var h := GetGenerationHistory(store.stored, false); |h| >= 1 && h[0] == g
  {
    home := new Home(store, false);
    home.HandleImageUpload(image);
    home.HandlePromptChange(prompt);
    var request := home.BeginGenerate();
    home.HandleAbort();
    var before := store.stored;
    home.FinishGenerate(Returned(Success(g)), false, false);
    SaveShape(before, g, false);
  }
}
