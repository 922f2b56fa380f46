/** The session record of App.tsx (`AppState`, types.ts) and the updaters
    the App component hands to `setState`: the Upload and Visualize
    callbacks, `goBack` and the reset of the Final stage. */
module Session {
  import opened Common

  /** `WorkflowStep`, in declaration order. */
  datatype Step = Upload | Visualize | Final

  datatype AppState = AppState(
    step: Step,
    coupletImage: Option<string>,
    doorImage: Option<string>,
    originalCopy: SocialCopy,
    generatedImages: seq<string>,
    selectedImageIndex: int,
    generatedCopy: Option<SocialCopy>,
    isLoading: bool,
    error: Option<string>)

  /** The state App starts with (the `useState` literal). */
  function Initial(): AppState
  {
    AppState(Upload, None, None, SocialCopy("", ""), [], 0, None, false, None)
  }

  /** The initial session: on Upload, no images, empty source copy, no results, no error. */
  lemma InitialState()
    ensures Initial().step == Upload
    ensures Initial().coupletImage == None && Initial().doorImage == None
    ensures Initial().originalCopy == SocialCopy("", "")
    ensures Initial().generatedImages == [] && Initial().selectedImageIndex == 0
    ensures Initial().generatedCopy == None && !Initial().isLoading && Initial().error == None
  {
  }

  /** `Object.values(WorkflowStep)`. */
  const StepValues: seq<Step> := [Upload, Visualize, Final]

  /** `xs.indexOf(x)`: the first position of `x`, or -1. */
  function IndexOf<T(==)>(xs: seq<T>, x: T): (r: int)
    ensures r == -1 <==> x !in xs
    ensures r != -1 ==> 0 <= r < |xs| && xs[r] == x && x !in xs[..r]
  {
    if xs == [] then -1
    else if xs[0] == x then 0
    else
      var k := IndexOf(xs[1..], x);
      if k == -1 then -1 else k + 1
  }

  /** The header's `indexOf(state.step) + 1` of "n/3". */
  function StepNumber(step: Step): (n: int)
    ensures 1 <= n <= |StepValues|
  {
    assert step == StepValues[0] || step == StepValues[1] || step == StepValues[2];
    IndexOf(StepValues, step) + 1
  }

  lemma StepNumbers()
    ensures StepNumber(Upload) == 1 && StepNumber(Visualize) == 2 && StepNumber(Final) == 3
  {
    assert StepValues[0] == Upload && StepValues[1] == Visualize && StepValues[2] == Final;
  }

  /** `goBack`: one stage back from Visualize and Final, nothing on Upload;
      only `step` changes. */
  function GoBack(s: AppState): (r: AppState)
    ensures r.(step := s.step) == s
    ensures s.step == Upload ==> r == s
    ensures s.step != Upload ==> StepNumber(r.step) == StepNumber(s.step) - 1
  {
    StepNumbers();
    match s.step
    case Visualize => s.(step := Upload)
    case Final => s.(step := Visualize)
    case Upload => s
  }

  /** The Upload stage's `onNext` updater: records the inputs and moves to Visualize. */
  function OnNext(s: AppState, couplet: string, door: Option<string>, copy: SocialCopy): (r: AppState)
    ensures r.coupletImage == Some(couplet) && r.doorImage == door && r.originalCopy == copy
    ensures r.step == Visualize
    ensures r.generatedImages == s.generatedImages && r.selectedImageIndex == s.selectedImageIndex
    ensures r.generatedCopy == s.generatedCopy && r.isLoading == s.isLoading && r.error == s.error
  {
    s.(coupletImage := Some(couplet), doorImage := door, originalCopy := copy, step := Visualize)
  }

  /** The Visualize stage's `onConfirm` updater: keeps only the chosen image
      and the final copy, and moves to Final. */
  function OnConfirm(s: AppState, image: string, copy: SocialCopy): (r: AppState)
    ensures r.generatedImages == [image] && r.generatedCopy == Some(copy) && r.step == Final
    ensures r.(generatedImages := s.generatedImages, generatedCopy := s.generatedCopy, step := s.step) == s
  {
    s.(generatedImages := [image], generatedCopy := Some(copy), step := Final)
  }

  /** The Final stage's `onReset`: a fresh literal, whatever the state was. */
  function OnReset(s: AppState): AppState
  {
    AppState(Upload, None, None, SocialCopy("", ""), [], 0, None, false, None)
  }

  lemma ResetIsInitial(s: AppState)
    ensures OnReset(s) == Initial()
  {
  }

  /** A callback invocation that reaches App. */
  datatype Event =
    | Back
    | Advance(couplet: string, door: Option<string>, copy: SocialCopy)
    | Confirm(image: string, copy: SocialCopy)
    | Reset

  /** What StepUpload's `handleNext` guarantees of the arguments it passes to `onNext`. */
  predicate UploadPayloadOk(couplet: string, copy: SocialCopy)
  {
    couplet != "" && copy.title != "" && copy.content != ""
  }

  /** Whether the callback behind `e` is wired in state `s`: each stage
      component is rendered only on its own step (and StepVisualize only
      with a truthy couplet image, StepFinal only with a truthy first image
      and a copy); `goBack` is passed only to StepVisualize. */
  predicate Wired(s: AppState, e: Event)
  {
    match e
    case Back => s.step == Visualize && Truthy(s.coupletImage)
    case Advance(couplet, _, copy) => s.step == Upload && UploadPayloadOk(couplet, copy)
    case Confirm(_, _) => s.step == Visualize && Truthy(s.coupletImage)
    case Reset =>
      s.step == Final && |s.generatedImages| > 0 && s.generatedImages[0] != "" && s.generatedCopy.Some?
  }

  function Apply(s: AppState, e: Event): AppState
  {
    match e
    case Back => GoBack(s)
    case Advance(couplet, door, copy) => OnNext(s, couplet, door, copy)
    case Confirm(image, copy) => OnConfirm(s, image, copy)
    case Reset => OnReset(s)
  }

  /** Every wired callback moves to an adjacent step, except reset, which
      returns to Upload; in particular Upload never jumps to Final. */
  lemma WiredMovesAdjacent(s: AppState, e: Event)
    requires Wired(s, e)
    ensures e.Reset? ==> Apply(s, e).step == Upload
    ensures !e.Reset? ==> StepNumber(Apply(s, e).step) - StepNumber(s.step) in {-1, 1}
    ensures s.step == Upload ==> Apply(s, e).step != Final
  {
    StepNumbers();
  }

  /** What holds of the session in every state reachable from the initial one. */
  predicate Consistent(s: AppState)
  {
    && (s.step != Upload ==>
          Truthy(s.coupletImage) && s.originalCopy.title != "" && s.originalCopy.content != "")
    && (s.step == Final ==> |s.generatedImages| == 1 && s.generatedCopy.Some?)
  }

  lemma InitialConsistent()
    ensures Consistent(Initial())
  {
  }

  lemma WiredKeepsConsistent(s: AppState, e: Event)
    requires Consistent(s) && Wired(s, e)
    ensures Consistent(Apply(s, e))
  {
  }

  /** A sequence of callbacks each of which is wired when it happens. */
  predicate WiredTrace(s: AppState, es: seq<Event>)
    decreases |es|
  {
    es == [] || (Wired(s, es[0]) && WiredTrace(Apply(s, es[0]), es[1..]))
  }

  function Run(s: AppState, es: seq<Event>): AppState
    decreases |es|
  {
    if es == [] then s else Run(Apply(s, es[0]), es[1..])
  }

  /** After any wired run from a consistent state (the initial one, say) the
      session is consistent: past Upload the couplet image and both halves
      of the source copy are present, and on Final exactly one image and a
      copy are held. */
  lemma {:induction false} RunKeepsConsistent(s: AppState, es: seq<Event>)
    requires Consistent(s) && WiredTrace(s, es)
    ensures Consistent(Run(s, es))
    decreases |es|
  {
    if es != [] {
      WiredKeepsConsistent(s, es[0]);
      RunKeepsConsistent(Apply(s, es[0]), es[1..]);
    }
  }

  /** App's one mutable cell, `state`, with the updaters applied through `setState`. */
  class App {
    var state: AppState

    constructor ()
      ensures state == Initial()
    {
      state := Initial();
    }

    /** The back button of StepVisualize. */
    method GoBackStep()
      requires Wired(state, Back)
      modifies this
      ensures state == GoBack(old(state))
    {
      state := GoBack(state);
    }

    method UploadNext(couplet: string, door: Option<string>, copy: SocialCopy)
      requires Wired(state, Advance(couplet, door, copy))
      modifies this
      ensures state == OnNext(old(state), couplet, door, copy)
      ensures Consistent(old(state)) ==> Consistent(state)
    {
      state := OnNext(state, couplet, door, copy);
    }

    method VisualizeConfirm(image: string, copy: SocialCopy)
      requires Wired(state, Confirm(image, copy))
      modifies this
      ensures state == OnConfirm(old(state), image, copy)
      ensures Consistent(old(state)) ==> Consistent(state)
    {
      state := OnConfirm(state, image, copy);
    }

    method FinalReset()
      requires Wired(state, Reset)
      modifies this
      ensures state == Initial()
    {
      state := OnReset(state);
    }
  }
}
