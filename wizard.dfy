/** The wizard's step machine (App.tsx): the current screen and what each
    transition stores or clears. */
module Wizard {
  import opened Types
  import Upload
  import Results

  /** The first entries of the scene and style catalogs, selected initially. */
  const FirstScene: TemplateScene := TemplateScene("crib", "婴儿床时光")
  const FirstStyle: TemplateStyle := TemplateStyle("cream", "软萌奶油风")

  /** The wizard's whole state. */
  datatype AppState = AppState(
    step: AppStep,
    photos: seq<Photo>,
    scene: TemplateScene,
    style: TemplateStyle,
    results: seq<GeneratedPhoto>)

  /** The handlers the wizard hands to its screens, as events. */
  datatype Event =
    | Start
    | UploadNext
    | UploadBack
    | SetPhotos(newPhotos: seq<Photo>)
    | TemplateNext(chosenScene: TemplateScene, chosenStyle: TemplateStyle)
    | TemplateBack
    | GenerationComplete(generated: seq<GeneratedPhoto>)
    | GenerationBack
    | Restart(fullReset: bool)

  /** The state on first render: the home screen, nothing uploaded or
      generated, the first catalog entries selected. */
  function Initial(): (s: AppState)
    ensures s.step == HOME && Inv(s)
  {
    AppState(HOME, [], FirstScene, FirstStyle, [])
  }

  /** What each handler does. The handlers themselves never look at the
      current step. */
  function Handle(s: AppState, e: Event): (t: AppState)
    ensures t.photos != s.photos ==> e.SetPhotos? || e == Restart(true)
    ensures t.results != s.results ==> e.GenerationComplete? || e == Restart(true)
    ensures t.scene != s.scene || t.style != s.style ==> e.TemplateNext?
  {
    match e
    case Start => s.(step := UPLOAD)
    case UploadNext => s.(step := TEMPLATE)
    case UploadBack => s.(step := HOME)
    case SetPhotos(ps) => s.(photos := ps)
    case TemplateNext(sc, st) => s.(scene := sc, style := st, step := GENERATING)
    case TemplateBack => s.(step := UPLOAD)
    case GenerationComplete(rs) => s.(results := rs, step := RESULT)
    case GenerationBack => s.(step := TEMPLATE)
    case Restart(fullReset) =>
      if fullReset then s.(photos := [], results := [], step := HOME)
      else s.(step := TEMPLATE)
  }

  /** The events the mounted screen can raise: each handler is passed only to
      its own screen; the upload screen's "next" button is enabled only by the
      upload gate and its photo updates keep at most three photos; the
      generation screen completes only with a non-empty result list. */
  predicate Offered(s: AppState, e: Event)
    ensures Offered(s, e) ==> s.step == ScreenOf(e)
  {
    match e
    case Start => s.step == HOME
    case UploadNext => s.step == UPLOAD && Upload.AllValid(s.photos)
    case UploadBack => s.step == UPLOAD
    case SetPhotos(ps) => s.step == UPLOAD && |ps| <= Upload.MaxPhotos
    case TemplateNext(_, _) => s.step == TEMPLATE
    case TemplateBack => s.step == TEMPLATE
    case GenerationComplete(rs) => s.step == GENERATING && rs != []
    case GenerationBack => s.step == GENERATING
    case Restart(_) => s.step == RESULT
  }

  /** The screen each handler is handed to when the wizard renders it. */
  function ScreenOf(e: Event): AppStep
  {
    match e
    case Start => HOME
    case UploadNext | UploadBack | SetPhotos(_) => UPLOAD
    case TemplateNext(_, _) | TemplateBack => TEMPLATE
    case GenerationComplete(_) | GenerationBack => GENERATING
    case Restart(_) => RESULT
  }

  /** The screen changes the wizard can make: four forward moves, three back
      moves, the two restarts and the upload screen staying put. */
  predicate Transition(from: AppStep, to: AppStep)
  {
    || (from == HOME && to == UPLOAD)
    || (from == UPLOAD && to == TEMPLATE)
    || (from == TEMPLATE && to == GENERATING)
    || (from == GENERATING && to == RESULT)
    || (from == UPLOAD && to == HOME)
    || (from == TEMPLATE && to == UPLOAD)
    || (from == GENERATING && to == TEMPLATE)
    || (from == RESULT && to == HOME)
    || (from == RESULT && to == TEMPLATE)
    || (from == UPLOAD && to == UPLOAD)
  }

  /** Every event a screen can raise makes one of the listed screen changes. */
  lemma OfferedEventsFollowTransitions(s: AppState, e: Event)
    requires Offered(s, e)
    ensures Transition(s.step, Handle(s, e).step)
  {
  }

  /** Every listed screen change is made by some event the current screen can
      raise (leaving the upload screen forward needs the gate open). */
  lemma TransitionRealized(s: AppState, to: AppStep) returns (e: Event)
    requires Transition(s.step, to)
    requires s.step == UPLOAD && to == TEMPLATE ==> Upload.AllValid(s.photos)
    requires s.step == UPLOAD && to == UPLOAD ==> |s.photos| <= Upload.MaxPhotos
    ensures Offered(s, e) && Handle(s, e).step == to
  {
    match s.step
    case HOME => e := Start;
    case UPLOAD =>
      if to == TEMPLATE { e := UploadNext; }
      else if to == HOME { e := UploadBack; }
      else { e := SetPhotos(s.photos); }
    case TEMPLATE =>
      if to == GENERATING { e := TemplateNext(s.scene, s.style); }
      else { e := TemplateBack; }
    case GENERATING =>
      if to == RESULT { e := GenerationComplete([GeneratedPhoto("", "", "", "")]); }
      else { e := GenerationBack; }
    case RESULT =>
      e := Restart(to == HOME);
  }

  /** The moves that only change the screen leave everything else alone. */
  lemma PlainMovesChangeOnlyTheStep(s: AppState, e: Event)
    requires e.Start? || e.UploadNext? || e.UploadBack? || e.TemplateBack? || e.GenerationBack?
             || e == Restart(false)
    ensures Handle(s, e) == s.(step := Handle(s, e).step)
  {
  }

  /** Leaving the template screen stores exactly the chosen pair. */
  lemma TemplateNextStoresChoice(s: AppState, scene: TemplateScene, style: TemplateStyle)
    ensures Handle(s, TemplateNext(scene, style))
         == AppState(GENERATING, s.photos, scene, style, s.results)
  {
  }

  /** Completing generation stores exactly the generated list. */
  lemma GenerationCompleteStoresResults(s: AppState, rs: seq<GeneratedPhoto>)
    ensures Handle(s, GenerationComplete(rs)) == AppState(RESULT, s.photos, s.scene, s.style, rs)
  {
  }

  /** The viewer's two buttons: "back to home" clears photos and results and
      goes home; "change template" goes to template selection keeping both. */
  lemma RestartButtonsEffect(s: AppState, button: Results.RestartButton)
    ensures var t := Handle(s, Restart(Results.RestartArgument(button)));
            (button == Results.BackToHome ==> t == s.(step := HOME, photos := [], results := []))
            && (button == Results.ChangeTemplate ==> t == s.(step := TEMPLATE))
  {
  }

  /** The wizard's behaviour under a sequence of user actions: an action the
      current screen does not offer cannot happen and is skipped. */
  function Run(s: AppState, events: seq<Event>): AppState
    decreases |events|
  {
    if events == [] then s
    else Run(if Offered(s, events[0]) then Handle(s, events[0]) else s, events[1..])
  }

  /** Never more than three photos; past the upload screen every photo has
      passed face detection; the viewer is reached only with results. */
  predicate Inv(s: AppState)
  {
    && |s.photos| <= Upload.MaxPhotos
    && (s.step == TEMPLATE || s.step == GENERATING || s.step == RESULT ==> Upload.AllValid(s.photos))
    && (s.step == RESULT ==> s.results != [])
  }

  /** The invariant holds initially and is kept by every offered event. */
  lemma InvInitialAndPreserved(s: AppState, e: Event)
    ensures Inv(Initial())
    ensures Inv(s) && Offered(s, e) ==> Inv(Handle(s, e))
  {
  }

  /** Any sequence of actions keeps the invariant. */
  lemma {:induction false} RunKeepsInv(s: AppState, events: seq<Event>)
    requires Inv(s)
    ensures Inv(Run(s, events))
    decreases |events|
  {
    if events != [] {
      var t := if Offered(s, events[0]) then Handle(s, events[0]) else s;
      InvInitialAndPreserved(s, events[0]);
      RunKeepsInv(t, events[1..]);
    }
  }

  /** From the start, generation only ever receives photos that all passed
      the upload gate, and the viewer never opens on an empty list. */
  lemma ReachableStatesAreSafe(events: seq<Event>)
    ensures var s := Run(Initial(), events);
            (s.step == GENERATING ==> Upload.AllValid(s.photos))
            && (s.step == RESULT ==> s.results != [])
  {
    InvInitialAndPreserved(Initial(), Start);
    RunKeepsInv(Initial(), events);
  }

  /** The uploaded photos survive every action except a full restart and the
      upload screen's own updates. */
  lemma {:induction false} PhotosSurvive(s: AppState, events: seq<Event>)
    requires forall i :: 0 <= i < |events| ==> !events[i].SetPhotos? && events[i] != Restart(true)
    ensures Run(s, events).photos == s.photos
    decreases |events|
  {
    if events != [] {
      var t := if Offered(s, events[0]) then Handle(s, events[0]) else s;
      assert t.photos == s.photos;
      PhotosSurvive(t, events[1..]);
    }
  }

  class App {
    var currentStep: AppStep
    var uploadedPhotos: seq<Photo>
    var selectedScene: TemplateScene
    var selectedStyle: TemplateStyle
    var results: seq<GeneratedPhoto>

    function State(): AppState
      reads this
    {
      AppState(currentStep, uploadedPhotos, selectedScene, selectedStyle, results)
    }

    /** Home screen, no photos, no results, the first scene and style. */
    constructor ()
      ensures State() == Initial()
    {
      currentStep := HOME;
      uploadedPhotos := [];
      selectedScene := FirstScene;
      selectedStyle := FirstStyle;
      results := [];
    }

    method HandleStart()
      modifies this
      ensures State() == Handle(old(State()), Start)
    {
      currentStep := UPLOAD;
    }

    method HandleUploadNext()
      modifies this
      ensures State() == Handle(old(State()), UploadNext)
    {
      currentStep := TEMPLATE;
    }

    method HandleUploadBack()
      modifies this
      ensures State() == Handle(old(State()), UploadBack)
    {
      currentStep := HOME;
    }

    /** The setter handed to the upload screen as `setPhotos`. */
    method SetUploadedPhotos(photos: seq<Photo>)
      modifies this
      ensures State() == Handle(old(State()), SetPhotos(photos))
    {
      uploadedPhotos := photos;
    }

    method HandleTemplateNext(scene: TemplateScene, style: TemplateStyle)
      modifies this
      ensures State() == Handle(old(State()), TemplateNext(scene, style))
    {
      selectedScene := scene;
      selectedStyle := style;
      currentStep := GENERATING;
    }

    method HandleTemplateBack()
      modifies this
      ensures State() == Handle(old(State()), TemplateBack)
    {
      currentStep := UPLOAD;
    }

    method HandleGenerationComplete(generatedResults: seq<GeneratedPhoto>)
      modifies this
      ensures State() == Handle(old(State()), GenerationComplete(generatedResults))
    {
      results := generatedResults;
      currentStep := RESULT;
    }

    method HandleGenerationBack()
      modifies this
      ensures State() == Handle(old(State()), GenerationBack)
    {
      currentStep := TEMPLATE;
    }

    /** `fullReset` is false when the caller leaves it out. */
    method HandleRestart(fullReset: bool := false)
      modifies this
      ensures State() == Handle(old(State()), Restart(fullReset))
    {
      if fullReset {
        uploadedPhotos := [];
        results := [];
        currentStep := HOME;
      } else {
        currentStep := TEMPLATE;
      }
    }
  }
}
