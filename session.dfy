/**
 * The guide overlay of the content script: the module-level state
 * (`currentStepIndex`, `currentSteps`, `overlayContainer`,
 * `highlightedElement`, `pageOverlay`) and the functions that change it.
 *
 * The state is also described as a value, `GuideState`, with one function
 * per operation; the methods of `ContentScript` are proved to move the
 * object's state exactly as those functions say, and the lemmas about the
 * functions say what the operations promise. Besides the source's own
 * variables the state records, as ghost state, which elements carry the
 * highlight class and how many dim layers are attached to the page.
 */
module Session {
  import opened Wrappers
  import opened JsString
  import opened Steps
  import opened Selectors
  import opened Tasks

  /** What the guide's container shows: the loading message, or the step panel with its controls. */
  datatype Panel =
    | LoadingPanel
    | GuidePanel(title: string, description: string, warning: bool,
                 prevDisabled: bool, nextDisabled: bool, nextLabel: string)

  /** The step panel as `createOverlay` builds it, before the first step is rendered. */
  const BlankGuide := GuidePanel("", "", false, false, false, "Next")

  /**
   * The content script's state. `overlay` is `overlayContainer` (with what it
   * shows), `dimmed` says whether `pageOverlay` is set, `marked` is the set of
   * elements carrying the highlight class and `dimLayers` the number of dim
   * layers attached to the document.
   */
  datatype GuideState = GuideState(
    index: int, steps: seq<Step>, overlay: Option<Panel>,
    highlighted: Option<Element>, dimmed: bool,
    marked: set<Element>, dimLayers: int)

  /** The state when the script is loaded. */
  const Initial := GuideState(0, [], None, None, false, {}, 0)

  /**
   * The invariant of the overlay: the only marked element is the
   * highlighted one, there is a dim layer exactly when an element is
   * highlighted (so at most one of each), and a non-empty guide is at one of
   * its steps.
   */
  predicate Consistent(s: GuideState) {
    && MarksConsistent(s)
    && 0 <= s.index
    && (s.steps != [] ==> s.index < |s.steps|)
  }

  /** The part of the invariant about the page: the marks and the dim layer. */
  predicate MarksConsistent(s: GuideState) {
    && s.marked == (if s.highlighted.Some? then {s.highlighted.value} else {})
    && s.dimLayers == (if s.dimmed then 1 else 0)
    && (s.dimmed <==> s.highlighted.Some?)
  }

  /** `clearHighlight`: unmark the highlighted element and detach the dim layer. */
  function Cleared(s: GuideState): GuideState {
    var s' := if s.highlighted.Some? then s.(marked := s.marked - {s.highlighted.value}, highlighted := None) else s;
    if s'.dimmed then s'.(dimmed := false, dimLayers := s'.dimLayers - 1) else s'
  }

  /** `createPageOverlay`: detach the old dim layer, if any, and attach a new one. */
  function WithDimLayer(s: GuideState): GuideState {
    var layers := if s.dimmed then s.dimLayers - 1 else s.dimLayers;
    s.(dimmed := true, dimLayers := layers + 1)
  }

  /** `highlightElement`, given what `findElement` found: mark the element and dim the page; nothing if none. */
  function Highlighted(s: GuideState, found: Option<Element>): GuideState {
    match found
    case None => s
    case Some(e) => WithDimLayer(s.(highlighted := Some(e), marked := s.marked + {e}))
  }

  /** The text of a step's description, and whether it is shown as a warning, given what was found. */
  function ShownDescription(step: Step, found: Option<Element>): (string, bool) {
    if step.fallback != "" && found.None? then
      (step.description + " (" + step.fallback + ")", true)
    else
      (step.description, false)
  }

  /** The step panel after rendering step `i`; a container without the panel is left as it is. */
  function Labelled(overlay: Option<Panel>, steps: seq<Step>, i: nat, found: Option<Element>): Option<Panel>
    requires i < |steps|
  {
    match overlay
    case Some(GuidePanel(_, _, _, _, _, _)) =>
      var last := i == |steps| - 1;
      var (text, warning) := ShownDescription(steps[i], found);
      Some(GuidePanel(steps[i].title, text, warning, i == 0, last, if last then "Finish" else "Next"))
    case _ => overlay
  }

  /**
   * `renderStep(i)`. The two calls of `findElement` on the step's selector
   * (for the description and, after the panel update and `clearHighlight`,
   * for the highlight) are assumed to find the same element, so one result
   * serves both. A selector that matches the guide's own nodes can make them
   * differ; the model does not capture that.
   */
  function Rendered(s: GuideState, i: int, page: Page): GuideState {
    if i < 0 || i >= |s.steps| then s
    else RenderedWith(s, i, FindElement(s.steps[i].selector, page))
  }

  /** `renderStep(i)` for an index of the guide, given what `findElement` found for its selector. */
  function RenderedWith(s: GuideState, i: nat, found: Option<Element>): GuideState
    requires i < |s.steps|
  {
    var s' := Cleared(s.(index := i, overlay := Labelled(s.overlay, s.steps, i, found)));
    if s.steps[i].selector != "" then Highlighted(s', found) else s'
  }

  /** `closeGuide`. */
  function Closed(s: GuideState): GuideState {
    Cleared(s).(overlay := None, index := 0, steps := [])
  }

  /** `navigateStep(direction)`. */
  function Navigated(s: GuideState, direction: int, page: Page): GuideState {
    var target := s.index + direction;
    if 0 <= target < |s.steps| then Rendered(s, target, page)
    else if target >= |s.steps| then Closed(s)
    else s
  }

  /** `createOverlay`: a fresh step panel replaces the container, then step 0 is rendered. */
  function Created(s: GuideState, page: Page): GuideState {
    Rendered(s.(overlay := Some(BlankGuide)), 0, page)
  }

  /** `showLoadingOverlay`: the loading message replaces the container. */
  function LoadingShown(s: GuideState): GuideState {
    s.(overlay := Some(LoadingPanel))
  }

  /** `fallbackToKeywordGuide`: classify the instruction, load the table's steps and show them. */
  function KeywordGuide(s: GuideState, instruction: string, currentUrl: string, page: Page): GuideState {
    Created(s.(steps := GetTaskSteps(ParseTask(instruction), currentUrl)), page)
  }

  /** The response callback of `startGuide`: adopt the generated steps, or fall back to the keyword guide. */
  function Responded(s: GuideState, instruction: string, currentUrl: string, delivery: Delivery, page: Page): GuideState {
    match AdoptedSteps(delivery)
    case Some(steps) => Created(s.(steps := steps), page)
    case None => KeywordGuide(s, instruction, currentUrl, page)
  }

  /** A click on "Previous"; the button exists only on the step panel and does nothing while disabled. */
  function ClickedPrevious(s: GuideState, page: Page): GuideState {
    match s.overlay
    case Some(GuidePanel(_, _, _, prevDisabled, _, _)) => if prevDisabled then s else Navigated(s, -1, page)
    case _ => s
  }

  /** A click on "Next" (labelled "Finish" at the last step); disabled, it does nothing. */
  function ClickedNext(s: GuideState, page: Page): GuideState {
    match s.overlay
    case Some(GuidePanel(_, _, _, _, nextDisabled, _)) => if nextDisabled then s else Navigated(s, 1, page)
    case _ => s
  }

  /** A click on the close button of the step panel. */
  function ClickedClose(s: GuideState): GuideState {
    match s.overlay
    case Some(GuidePanel(_, _, _, _, _, _)) => Closed(s)
    case _ => s
  }

  // ---------------------------------------------------------------------
  // What the operations promise
  // ---------------------------------------------------------------------

  /** The invariant allows at most one highlighted element and at most one dim layer. */
  lemma AtMostOneOfEach(s: GuideState)
    requires Consistent(s)
    ensures |s.marked| <= 1 && 0 <= s.dimLayers <= 1
  {
  }

  /** The script starts in a consistent state. */
  lemma InitialConsistent()
    ensures Consistent(Initial)
  {
  }

  /** `clearHighlight` leaves nothing highlighted and no dim layer, and unmarks the element it held. */
  lemma ClearedEffect(s: GuideState)
    requires Consistent(s)
    ensures Cleared(s).highlighted.None? && !Cleared(s).dimmed
    ensures Cleared(s).marked == {} && Cleared(s).dimLayers == 0
    ensures Cleared(s).(highlighted := s.highlighted, dimmed := s.dimmed, marked := s.marked, dimLayers := s.dimLayers) == s
    ensures Consistent(Cleared(s))
  {
  }

  /** `clearHighlight` is idempotent. */
  lemma ClearedIdempotent(s: GuideState)
    ensures Cleared(Cleared(s)) == Cleared(s)
  {
  }

  /** From a consistent state, `closeGuide` returns the script to the state it was loaded in. */
  lemma ClosedEffect(s: GuideState)
    requires Consistent(s)
    ensures Closed(s) == Initial
  {
  }

  /** `closeGuide` is idempotent, and a closed guide is consistent. */
  lemma ClosedIdempotent(s: GuideState)
    ensures Closed(Closed(s)) == Closed(s)
    ensures Consistent(s) ==> Consistent(Closed(s))
  {
  }

  /** `renderStep` with an index outside the guide changes nothing at all. */
  lemma RenderOutOfRange(s: GuideState, i: int, page: Page)
    requires i < 0 || i >= |s.steps|
    ensures Rendered(s, i, page) == s
  {
  }

  /** After `closeGuide`, `renderStep` is a no-op for every index. */
  lemma RenderAfterClose(s: GuideState, i: int, page: Page)
    ensures Rendered(Closed(s), i, page) == Closed(s)
  {
  }

  /**
   * `renderStep(i)` for an index of the guide moves to step `i`, keeps the
   * steps, removes the old highlight and dim layer, and puts a new one of
   * each exactly when a non-empty selector finds an element.
   */
  lemma RenderHighlight(s: GuideState, i: int, page: Page)
    requires MarksConsistent(s) && 0 <= i < |s.steps|
    ensures var r := Rendered(s, i, page);
            var step := s.steps[i];
            && r.index == i && r.steps == s.steps
            && r.highlighted == (if step.selector == "" then None else FindElement(step.selector, page))
            && r.marked == (if r.highlighted.Some? then {r.highlighted.value} else {})
            && (r.dimmed <==> r.highlighted.Some?) && r.dimLayers == (if r.dimmed then 1 else 0)
  {
    RenderWithHighlight(s, i, FindElement(s.steps[i].selector, page));
  }

  /** The same, for any outcome of the search. */
  lemma RenderWithHighlight(s: GuideState, i: nat, found: Option<Element>)
    requires MarksConsistent(s) && i < |s.steps|
    ensures var r := RenderedWith(s, i, found);
            && r.index == i && r.steps == s.steps
            && r.highlighted == (if s.steps[i].selector == "" then None else found)
            && r.marked == (if r.highlighted.Some? then {r.highlighted.value} else {})
            && (r.dimmed <==> r.highlighted.Some?) && r.dimLayers == (if r.dimmed then 1 else 0)
  {
  }

  /**
   * `renderStep(i)` for an index of the guide fills in the step panel, when
   * it is shown: the step's title; its description, with the fallback
   * appended exactly when there is a fallback and nothing was found;
   * "previous" disabled exactly at the first step; "next" disabled and
   * labelled "Finish" exactly at the last. Any other container is left alone.
   */
  lemma RenderPanel(s: GuideState, i: int, page: Page)
    requires 0 <= i < |s.steps|
    ensures var r := Rendered(s, i, page);
            var step := s.steps[i];
            && (s.overlay.Some? && s.overlay.value.GuidePanel? ==>
                  && r.overlay.Some? && r.overlay.value.GuidePanel?
                  && var p := r.overlay.value;
                  && p.title == step.title
                  && (p.warning <==> step.fallback != "" && FindElement(step.selector, page).None?)
                  && p.description == (if p.warning then step.description + " (" + step.fallback + ")" else step.description)
                  && (p.prevDisabled <==> i == 0)
                  && (p.nextDisabled <==> i == |s.steps| - 1)
                  && p.nextLabel == (if i == |s.steps| - 1 then "Finish" else "Next"))
            && (s.overlay.None? || s.overlay.value.LoadingPanel? ==> r.overlay == s.overlay)
  {
    RenderWithPanel(s, i, FindElement(s.steps[i].selector, page));
  }

  /** The same, for any outcome of the search. */
  lemma RenderWithPanel(s: GuideState, i: nat, found: Option<Element>)
    requires i < |s.steps|
    ensures var r := RenderedWith(s, i, found);
            var step := s.steps[i];
            && (s.overlay.Some? && s.overlay.value.GuidePanel? ==>
                  && r.overlay.Some? && r.overlay.value.GuidePanel?
                  && var p := r.overlay.value;
                  && p.title == step.title
                  && (p.warning <==> step.fallback != "" && found.None?)
                  && p.description == (if p.warning then step.description + " (" + step.fallback + ")" else step.description)
                  && (p.prevDisabled <==> i == 0)
                  && (p.nextDisabled <==> i == |s.steps| - 1)
                  && p.nextLabel == (if i == |s.steps| - 1 then "Finish" else "Next"))
            && (s.overlay.None? || s.overlay.value.LoadingPanel? ==> r.overlay == s.overlay)
  {
    var s' := Cleared(s.(index := i, overlay := Labelled(s.overlay, s.steps, i, found)));
    assert RenderedWith(s, i, found).overlay == s'.overlay;
  }

  /** `renderStep` keeps the invariant. */
  lemma RenderedConsistent(s: GuideState, i: int, page: Page)
    requires Consistent(s)
    ensures Consistent(Rendered(s, i, page))
  {
    if 0 <= i < |s.steps| {
      RenderHighlight(s, i, page);
    }
  }

  /**
   * `navigateStep`: a target inside the guide becomes the current step, with
   * the guide's steps kept; from a consistent state, running past the end
   * returns the script to the state it was loaded in; a target before the
   * start changes nothing.
   */
  lemma NavigateCases(s: GuideState, direction: int, page: Page)
    ensures var target := s.index + direction;
            var r := Navigated(s, direction, page);
            && (0 <= target < |s.steps| ==> r.index == target && r.steps == s.steps)
            && (target >= |s.steps| ==> r == Closed(s) && (Consistent(s) ==> r == Initial))
            && (target < 0 ==> r == s)
  {
    var target := s.index + direction;
    if 0 <= target < |s.steps| {
      RenderedKeepsSteps(s, target, page);
    } else if target >= |s.steps| && Consistent(s) {
      ClosedEffect(s);
    }
  }

  /** `renderStep` on a step of the guide makes it the current step and keeps the steps. */
  lemma RenderedKeepsSteps(s: GuideState, i: int, page: Page)
    requires 0 <= i < |s.steps|
    ensures Rendered(s, i, page).index == i && Rendered(s, i, page).steps == s.steps
  {
  }

  /** `navigateStep` keeps the invariant. */
  lemma NavigatedConsistent(s: GuideState, direction: int, page: Page)
    requires Consistent(s)
    ensures Consistent(Navigated(s, direction, page))
  {
    RenderedConsistent(s, s.index + direction, page);
    ClosedIdempotent(s);
  }

  /** Opening a guide with at least one step shows its first step. */
  lemma CreatedShowsFirst(s: GuideState, page: Page)
    requires MarksConsistent(s) && s.steps != []
    ensures Created(s, page).index == 0
    ensures Created(s, page).overlay.Some? && Created(s, page).overlay.value.GuidePanel?
    ensures Created(s, page).overlay.value.title == s.steps[0].title
    ensures Consistent(Created(s, page))
  {
    RenderHighlight(s.(overlay := Some(BlankGuide)), 0, page);
    RenderPanel(s.(overlay := Some(BlankGuide)), 0, page);
  }

  /**
   * Adopting an empty list of steps renders nothing: `renderStep(0)` returns
   * at once, so the highlight of a guide that was running stays on the page
   * while the panel stays blank.
   */
  lemma EmptyAdoptionKeepsHighlight(s: GuideState, page: Page)
    ensures Created(s.(steps := []), page) == s.(steps := [], overlay := Some(BlankGuide))
  {
  }

  /** Opening a guide keeps the invariant. */
  lemma CreatedConsistent(s: GuideState, page: Page)
    requires MarksConsistent(s) && 0 <= s.index
    ensures Consistent(Created(s, page))
  {
    if s.steps != [] {
      RenderHighlight(s.(overlay := Some(BlankGuide)), 0, page);
    }
  }

  /** Opening a guide keeps its steps. */
  lemma CreatedKeepsSteps(s: GuideState, page: Page)
    ensures Created(s, page).steps == s.steps
  {
  }

  /** The guide of every row of the table has steps, so it opens at its first step. */
  lemma TableGuideOpens(s: GuideState, taskType: string, currentUrl: string, page: Page)
    requires Consistent(s)
    ensures var r := Created(s.(steps := GetTaskSteps(taskType, currentUrl)), page);
            r.index == 0 && Consistent(r)
  {
    TaskStepsLength(taskType, currentUrl);
    CreatedShowsFirst(s.(steps := GetTaskSteps(taskType, currentUrl)), page);
  }

  /** The keyword guide shows the steps of the row the instruction selects, from the first. */
  lemma KeywordGuideOpens(s: GuideState, instruction: string, currentUrl: string, page: Page)
    requires Consistent(s)
    ensures var r := KeywordGuide(s, instruction, currentUrl, page);
            && r.steps == GetTaskSteps(ParseTask(instruction), currentUrl)
            && r.index == 0 && Consistent(r)
  {
    CreatedKeepsSteps(s.(steps := GetTaskSteps(ParseTask(instruction), currentUrl)), page);
    TableGuideOpens(s, ParseTask(instruction), currentUrl, page);
  }

  /**
   * The response callback adopts the generated steps exactly when the
   * response reports success with steps, and otherwise runs the keyword
   * guide; either way the invariant is kept.
   */
  lemma RespondedCases(s: GuideState, instruction: string, currentUrl: string, delivery: Delivery, page: Page)
    requires Consistent(s)
    ensures var r := Responded(s, instruction, currentUrl, delivery, page);
            && (AdoptedSteps(delivery).Some? ==> r.steps == AdoptedSteps(delivery).value)
            && (AdoptedSteps(delivery).None? ==> r == KeywordGuide(s, instruction, currentUrl, page))
            && Consistent(r)
  {
    match AdoptedSteps(delivery)
    case Some(steps) => CreatedConsistent(s.(steps := steps), page);
    case None => KeywordGuideOpens(s, instruction, currentUrl, page);
  }

  /**
   * The "Finish" button cannot finish: at the last step it is disabled, so
   * clicking it changes nothing and the guide is never closed from there.
   */
  lemma FinishIsInert(s: GuideState, page: Page)
    requires s.steps != [] && s.overlay.Some? && s.overlay.value.GuidePanel?
    ensures var r := Rendered(s, |s.steps| - 1, page);
            && r.overlay.Some? && r.overlay.value.nextLabel == "Finish"
            && ClickedNext(r, page) == r
  {
    RenderPanel(s, |s.steps| - 1, page);
  }

  /** The navigation buttons keep the invariant. */
  lemma ClicksConsistent(s: GuideState, page: Page)
    requires Consistent(s)
    ensures Consistent(ClickedPrevious(s, page))
    ensures Consistent(ClickedNext(s, page))
    ensures Consistent(ClickedClose(s))
  {
    NavigatedConsistent(s, -1, page);
    NavigatedConsistent(s, 1, page);
  }

  // ---------------------------------------------------------------------
  // The content script as an object
  // ---------------------------------------------------------------------

  /** The content script's module-level variables, and the ghost record of the marks and dim layers. */
  class ContentScript {
    var currentStepIndex: int
    var currentSteps: seq<Step>
    var overlayContainer: Option<Panel>
    var highlightedElement: Option<Element>
    var pageOverlay: bool
    ghost var marked: set<Element>
    ghost var dimLayers: int

    /** The object's state as a value. */
    ghost function State(): GuideState
      reads this
    {
      GuideState(currentStepIndex, currentSteps, overlayContainer, highlightedElement, pageOverlay, marked, dimLayers)
    }

    ghost predicate Valid()
      reads this
    {
      Consistent(State())
    }

    /** The variables as the script declares them. */
    constructor ()
      ensures State() == Initial && Valid()
    {
      currentStepIndex := 0;
      currentSteps := [];
      overlayContainer := None;
      highlightedElement := None;
      pageOverlay := false;
      marked := {};
      dimLayers := 0;
    }

    /** `clearHighlight`. */
    method ClearHighlight()
      modifies this
      ensures State() == Cleared(old(State()))
    {
      if highlightedElement.Some? {
        marked := marked - {highlightedElement.value};
        highlightedElement := None;
      }
      if pageOverlay {
        dimLayers := dimLayers - 1;
        pageOverlay := false;
      }
    }

    /** `createPageOverlay`. */
    method CreatePageOverlay()
      modifies this
      ensures State() == WithDimLayer(old(State()))
    {
      if pageOverlay {
        dimLayers := dimLayers - 1;
      }
      pageOverlay := true;
      dimLayers := dimLayers + 1;
    }

    /** `highlightElement`. */
    method HighlightElement(selector: string, page: Page)
      modifies this
      ensures State() == Highlighted(old(State()), FindElement(selector, page))
    {
      ghost var s := State();
      var element := FindElement(selector, page);
      if element.Some? {
        highlightedElement := element;
        marked := marked + {element.value};
        assert State() == s.(highlighted := element, marked := s.marked + {element.value});
        CreatePageOverlay();
      }
    }

    /** `renderStep`. */
    method RenderStep(stepIndex: int, page: Page)
      modifies this
      ensures State() == Rendered(old(State()), stepIndex, page)
      ensures old(Valid()) ==> Valid()
    {
      ghost var s := State();
      if stepIndex < 0 || stepIndex >= |currentSteps| {
        return;
      }
      var step := currentSteps[stepIndex];
      var found := FindElement(step.selector, page);
      currentStepIndex := stepIndex;
      overlayContainer := Labelled(overlayContainer, currentSteps, stepIndex, found);
      ClearHighlight();
      if step.selector != "" {
        HighlightElement(step.selector, page);
      }
      if Consistent(s) {
        RenderedConsistent(s, stepIndex, page);
      }
    }

    /** `closeGuide`. */
    method CloseGuide()
      modifies this
      ensures State() == Closed(old(State()))
      ensures old(Valid()) ==> State() == Initial
    {
      ghost var s := State();
      ClearHighlight();
      overlayContainer := None;
      currentStepIndex := 0;
      currentSteps := [];
      if Consistent(s) {
        ClosedEffect(s);
      }
    }

    /** `navigateStep`. */
    method NavigateStep(direction: int, page: Page)
      modifies this
      ensures State() == Navigated(old(State()), direction, page)
      ensures old(Valid()) ==> Valid()
    {
      ghost var s := State();
      var newIndex := currentStepIndex + direction;
      if 0 <= newIndex < |currentSteps| {
        RenderStep(newIndex, page);
      } else if newIndex >= |currentSteps| {
        CloseGuide();
        if Consistent(s) {
          ClosedIdempotent(s);
        }
      }
    }

    /** `createOverlay`. */
    method CreateOverlay(page: Page)
      modifies this
      ensures State() == Created(old(State()), page)
      ensures old(Valid()) ==> Valid()
    {
      overlayContainer := Some(BlankGuide);
      RenderStep(0, page);
    }

    /** `showLoadingOverlay`. */
    method ShowLoadingOverlay()
      modifies this
      ensures State() == LoadingShown(old(State()))
      ensures old(Valid()) ==> Valid()
    {
      overlayContainer := Some(LoadingPanel);
    }

    /** `fallbackToKeywordGuide`. */
    method FallbackToKeywordGuide(instruction: string, currentUrl: string, page: Page)
      modifies this
      ensures State() == KeywordGuide(old(State()), instruction, currentUrl, page)
      ensures old(Valid()) ==> Valid() && currentStepIndex == 0 && |currentSteps| >= 3
    {
      ghost var s := State();
      var taskType := ParseTask(instruction);
      currentSteps := GetTaskSteps(taskType, currentUrl);
      CreateOverlay(page);
      TaskStepsLength(taskType, currentUrl);
      if Consistent(s) {
        KeywordGuideOpens(s, instruction, currentUrl, page);
      }
    }

    /**
     * `startGuide`: an empty URL is replaced by the page's own `location`.
     * The keyword path opens the guide at once. The AI path shows the loading
     * message and returns the request it sends; the response arrives later,
     * through `OnGuideResponse`. When sending throws, the keyword guide opens
     * instead.
     */
    method StartGuide(instruction: string, useAI: bool, currentUrl: string, location: string,
                      sendThrows: bool, page: Page) returns (request: Option<GuideRequest>)
      modifies this
      ensures var url := if currentUrl == "" then location else currentUrl;
              && (!useAI ==> request.None? && State() == KeywordGuide(old(State()), instruction, url, page))
              && (useAI && sendThrows ==>
                    request.None? && State() == KeywordGuide(LoadingShown(old(State())), instruction, url, page))
              && (useAI && !sendThrows ==>
                    request == Some(GuideRequest(instruction, url)) && State() == LoadingShown(old(State())))
      ensures old(Valid()) ==> Valid()
    {
      var url := currentUrl;
      if url == "" {
        url := location;
      }
      request := None;
      if useAI {
        ShowLoadingOverlay();
        if sendThrows {
          FallbackToKeywordGuide(instruction, url, page);
        } else {
          request := Some(GuideRequest(instruction, url));
        }
      } else {
        FallbackToKeywordGuide(instruction, url, page);
      }
    }

    /** The callback of the `GENERATE_GUIDE` request. */
    method OnGuideResponse(instruction: string, currentUrl: string, delivery: Delivery, page: Page)
      modifies this
      ensures State() == Responded(old(State()), instruction, currentUrl, delivery, page)
      ensures old(Valid()) ==> Valid()
    {
      var adopted := AdoptedSteps(delivery);
      if adopted.Some? {
        currentSteps := adopted.value;
        CreateOverlay(page);
      } else {
        FallbackToKeywordGuide(instruction, currentUrl, page);
      }
    }

    /** The "Previous" button's listener. */
    method ClickPrevious(page: Page)
      modifies this
      ensures State() == ClickedPrevious(old(State()), page)
      ensures old(Valid()) ==> Valid()
    {
      if overlayContainer.Some? && overlayContainer.value.GuidePanel? && !overlayContainer.value.prevDisabled {
        NavigateStep(-1, page);
      }
    }

    /** The "Next" button's listener. */
    method ClickNext(page: Page)
      modifies this
      ensures State() == ClickedNext(old(State()), page)
      ensures old(Valid()) ==> Valid()
    {
      if overlayContainer.Some? && overlayContainer.value.GuidePanel? && !overlayContainer.value.nextDisabled {
        NavigateStep(1, page);
      }
    }

    /** The close button's listener. */
    method ClickClose()
      modifies this
      ensures State() == ClickedClose(old(State()))
      ensures old(Valid()) ==> Valid()
    {
      if overlayContainer.Some? && overlayContainer.value.GuidePanel? {
        ghost var s := State();
        CloseGuide();
        if Consistent(s) {
          ClosedIdempotent(s);
        }
      }
    }
  }
}
