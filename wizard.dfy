/**
 * The wizard (App.tsx): its state, the transitions its handlers make, the
 * screen it renders for a state, and the user events the screen offers.
 * The promise of `generatePortfolio` is split into the click that starts
 * it and the settlement that finishes it, so that any event the page
 * still offers can come in between.
 */
module Wizard {
  import opened Optional
  import opened Types
  import opened FormSteps
  import opened PortfolioPreview
  import opened Generation
  import StepIndicator

  const UnknownErrorMessage: string := "An unknown error occurred."

  /** What the `catch` of `handleGenerate` stores: an `Error`'s message, or a fixed text for anything else thrown. */
  function CaughtMessage(t: Thrown): (m: string)
    ensures t.ErrorObject? ==> m == t.message
    ensures t.NonError? ==> m == UnknownErrorMessage
  {
    match t
    case ErrorObject(message) => message
    case NonError => UnknownErrorMessage
  }

  /** The five pieces of React state of the page. */
  datatype AppState = AppState(
    step: int,
    formData: PortfolioData,
    isLoading: bool,
    generatedHtml: Option<string>,
    error: Option<string>)

  /** The empty portfolio the page starts with: blank texts, empty lists, a dark blue one-page design. */
  const InitialData: PortfolioData := PortfolioData(
    BasicInfo("", "", "", ""),
    Skills([], [], []),
    [], [],
    Design(Dark, Blue, OnePage))

  const Initial: AppState := AppState(BasicInfoStep, InitialData, false, None, None)

  // ---------------------------------------------------------------------
  // Transitions
  // ---------------------------------------------------------------------

  /**
   * `updateFormData(section, data)`: the record with the one section
   * replaced. That section now reads back as given and every other section
   * is as it was.
   */
  function WithSection(data: PortfolioData, v: SectionValue): (r: PortfolioData)
    ensures Read(r, v.Key()) == v
    ensures forall s :: s != v.Key() ==> Read(r, s) == Read(data, s)
  {
    match v
    case BasicInfoValue(b) => data.(basicInfo := b)
    case SkillsValue(k) => data.(skills := k)
    case ExperienceValue(e) => data.(experience := e)
    case ProjectsValue(p) => data.(projects := p)
    case DesignValue(d) => data.(design := d)
  }

  /** Writing back what was read changes nothing, and a second write to a section replaces the first. */
  lemma WithSectionLaws(data: PortfolioData, v: SectionValue, w: SectionValue)
    ensures forall s :: WithSection(data, Read(data, s)) == data
    ensures v.Key() == w.Key() ==> WithSection(WithSection(data, v), w) == WithSection(data, w)
  {
    forall s ensures WithSection(data, Read(data, s)) == data {
      var r := WithSection(data, Read(data, s));
      forall t ensures Read(r, t) == Read(data, t) {}
      SectionsDetermineData(r, data);
    }
    if v.Key() == w.Key() {
      var a, b := WithSection(WithSection(data, v), w), WithSection(data, w);
      forall t ensures Read(a, t) == Read(b, t) {}
      SectionsDetermineData(a, b);
    }
  }

  /** `nextStep`: one step on, but never past `Object.keys(FormStep).length / 2`. */
  function NextStep(step: int): (r: int)
    ensures r <= LastStep && (r == step + 1 || r == LastStep)
    ensures step < LastStep ==> r == step + 1
  {
    if step + 1 < LastStep then step + 1 else LastStep
  }

  /** `prevStep`: one step back, but never below 1. */
  function PrevStep(step: int): (r: int)
    ensures r >= BasicInfoStep && (r == step - 1 || r == BasicInfoStep)
    ensures step > BasicInfoStep ==> r == step - 1
  {
    if step - 1 > BasicInfoStep then step - 1 else BasicInfoStep
  }

  /**
   * Both moves stay among the steps; they undo each other away from the
   * ends; at the ends they stand still, and the upper end is COMPLETE.
   */
  lemma StepMoves(step: int)
    requires IsFormStep(step)
    ensures IsFormStep(NextStep(step)) && IsFormStep(PrevStep(step))
    ensures step < CompleteStep ==> NextStep(step) == step + 1 && PrevStep(NextStep(step)) == step
    ensures step > BasicInfoStep ==> PrevStep(step) == step - 1 && NextStep(PrevStep(step)) == step
    ensures NextStep(CompleteStep) == CompleteStep && PrevStep(BasicInfoStep) == BasicInfoStep
  {
    MembersNumberedInOrder();
  }

  /** The first half of `handleGenerate`: loading, with the previous error and result cleared. */
  function Begin(s: AppState): (r: AppState)
    ensures r.isLoading && r.error.None? && r.generatedHtml.None?
    ensures r.step == s.step && r.formData == s.formData
    ensures s.step == DesignStep ==> NavButtons(r)[1] == GenerateButton(false, "Generating...")
  {
    s.(isLoading := true, error := None, generatedHtml := None)
  }

  /** How a settled generation is shown: as the code stands, or with a failure also moving to the result page. */
  datatype Policy = AsWritten | Reported

  /**
   * The second half of `handleGenerate`. Success stores the HTML and moves
   * to COMPLETE; failure stores the caught message and, as written, stays
   * on the current step; either way loading ends.
   */
  function Settle(policy: Policy, s: AppState, outcome: Settled): (r: AppState)
    ensures !r.isLoading && r.formData == s.formData
    ensures outcome.Fulfilled? ==> r.step == CompleteStep && r.generatedHtml == Some(outcome.html) && r.error == s.error
    ensures outcome.Rejected? ==> r.error == Some(CaughtMessage(outcome.reason)) && r.generatedHtml == s.generatedHtml
    ensures outcome.Rejected? ==> r.step == (if policy == AsWritten then s.step else CompleteStep)
  {
    match outcome
    case Fulfilled(html) => s.(generatedHtml := Some(html), step := CompleteStep, isLoading := false)
    case Rejected(reason) =>
      var failed := s.(error := Some(CaughtMessage(reason)), isLoading := false);
      if policy == AsWritten then failed else failed.(step := CompleteStep)
  }

  /** `onReset` of the result page: back to the first step, everything else kept. */
  function Reset(s: AppState): (r: AppState)
    ensures ScreenOf(r) == FormScreen(BasicInfoStep)
    ensures r.formData == s.formData && r.generatedHtml == s.generatedHtml && r.error == s.error
    ensures r.isLoading == s.isLoading
  {
    s.(step := BasicInfoStep)
  }

  // ---------------------------------------------------------------------
  // What is rendered
  // ---------------------------------------------------------------------

  /** The page: the header, step bar, a form and its buttons before COMPLETE; the result page at COMPLETE. */
  datatype Screen = FormScreen(step: int) | PreviewScreen(view: View)

  function ScreenOf(s: AppState): (sc: Screen)
    ensures sc.FormScreen? <==> s.step != CompleteStep
    ensures sc.FormScreen? ==> sc.step == s.step
    ensures sc.PreviewScreen? ==> sc.view == SelectView(s.generatedHtml, s.error)
  {
    if s.step != CompleteStep then FormScreen(s.step)
    else PreviewScreen(SelectView(s.generatedHtml, s.error))
  }

  /** The buttons under a form: Back, then Generate on the last editing step or Next on the others. */
  datatype NavButton = BackButton(enabled: bool) | GenerateButton(enabled: bool, caption: string) | NextButton

  function NavButtons(s: AppState): (buttons: seq<NavButton>)
    ensures |buttons| == 2 && buttons[0] == BackButton(s.step != BasicInfoStep)
    ensures buttons[1].GenerateButton? <==> s.step == DesignStep
    ensures buttons[1].GenerateButton? ==> buttons[1].enabled == !s.isLoading
    ensures s.step != DesignStep ==> buttons[1] == NextButton
  {
    [BackButton(s.step != BasicInfoStep)] +
    if s.step == DesignStep then
      [GenerateButton(!s.isLoading, if s.isLoading then "Generating..." else "Generate Portfolio")]
    else [NextButton]
  }

  /** The section the form of an editing step writes to. */
  function SectionOf(step: int): Section
    requires IsEditingStep(step)
  {
    if step == BasicInfoStep then BasicInfoKey
    else if step == SkillsStep then SkillsKey
    else if step == ExperienceStep then ExperienceKey
    else if step == ProjectsStep then ProjectsKey
    else DesignKey
  }

  // ---------------------------------------------------------------------
  // Events
  // ---------------------------------------------------------------------

  datatype Event =
    | Edit(value: SectionValue)
    | NextClicked
    | BackClicked
    | StepClicked(index: nat)
    | GenerateClicked
    | GenerationSettled(outcome: Settled)
    | ResetClicked

  /** The events the rendered page offers in a state. */
  predicate Enabled(s: AppState, e: Event): (offered: bool)
    ensures offered && e.NextClicked? ==> IsEditingStep(s.step) && s.step != DesignStep
    ensures offered && e.BackClicked? ==> IsEditingStep(s.step) && s.step != BasicInfoStep
    ensures offered && e.GenerateClicked? ==> s.step == DesignStep && !s.isLoading
    ensures offered && e.ResetClicked? ==> s.step == CompleteStep && (s.error.Some? || s.generatedHtml.Some?)
    ensures offered && s.step == CompleteStep ==> e.ResetClicked? || e.GenerationSettled?
  {
    match e
    case Edit(v) => IsEditingStep(s.step) && v.Key() == SectionOf(s.step)
    case NextClicked => IsEditingStep(s.step) && NavButtons(s)[1] == NextButton
    case BackClicked => IsEditingStep(s.step) && NavButtons(s)[0].enabled
    case StepClicked(index) => IsEditingStep(s.step) && index < |StepIndicator.Steps|
    case GenerateClicked => IsEditingStep(s.step) && NavButtons(s)[1] == GenerateButton(true, "Generate Portfolio")
    case GenerationSettled(_) => s.isLoading
    case ResetClicked => ScreenOf(s).PreviewScreen? && !ScreenOf(s).view.Generating?
  }

  /**
   * What an event does. Only edits change the form data, only a generation
   * touches loading, result and error, and edits never move the step.
   */
  function Apply(policy: Policy, s: AppState, e: Event): (r: AppState)
    ensures !e.Edit? ==> r.formData == s.formData
    ensures !e.GenerateClicked? && !e.GenerationSettled? ==>
      r.isLoading == s.isLoading && r.error == s.error && r.generatedHtml == s.generatedHtml
    ensures e.Edit? ==> r.step == s.step
  {
    match e
    case Edit(v) => s.(formData := WithSection(s.formData, v))
    case NextClicked => s.(step := NextStep(s.step))
    case BackClicked => s.(step := PrevStep(s.step))
    case StepClicked(index) =>
      if index < |StepIndicator.Steps| then s.(step := StepIndicator.ClickTarget(index)) else s
    case GenerateClicked => Begin(s)
    case GenerationSettled(outcome) => Settle(policy, s, outcome)
    case ResetClicked => Reset(s)
  }

  function Run(policy: Policy, s: AppState, events: seq<Event>): AppState
    decreases |events|
  {
    if events == [] then s else Run(policy, Apply(policy, s, events[0]), events[1..])
  }

  /** Every event of the sequence is offered by the page when it comes. */
  predicate EnabledRun(policy: Policy, s: AppState, events: seq<Event>)
    decreases |events|
  {
    events == [] || (Enabled(s, events[0]) && EnabledRun(policy, Apply(policy, s, events[0]), events[1..]))
  }

  // ---------------------------------------------------------------------
  // Invariant
  // ---------------------------------------------------------------------

  /**
   * The step is a member of `FormStep`; while loading there is neither an
   * error nor a result and the page is not at COMPLETE; at COMPLETE
   * nothing is loading and, as written, there is always a result and never
   * an error, while when failures are reported there is exactly one of the
   * two.
   */
  predicate Inv(policy: Policy, s: AppState) {
    IsFormStep(s.step) &&
    (s.isLoading ==> s.step != CompleteStep && s.error.None? && s.generatedHtml.None?) &&
    (s.step == CompleteStep ==> !s.isLoading && CompleteResult(policy, s))
  }

  /** What the page holds at COMPLETE. */
  predicate CompleteResult(policy: Policy, s: AppState) {
    if policy == AsWritten then s.error.None? && s.generatedHtml.Some?
    else s.error.Some? != s.generatedHtml.Some?
  }

  lemma InitialInv(policy: Policy)
    ensures Inv(policy, Initial)
  {
  }

  /** Every event the page offers keeps the invariant. */
  lemma EventKeepsInv(policy: Policy, s: AppState, e: Event)
    requires Inv(policy, s) && Enabled(s, e)
    ensures Inv(policy, Apply(policy, s, e))
  {
    match e
    case NextClicked =>
      StepMoves(s.step);
    case BackClicked =>
      StepMoves(s.step);
    case StepClicked(index) =>
      var t := StepIndicator.ClickTarget(index);
    case _ =>
  }

  /** Every sequence of offered events from a state that keeps the invariant ends in such a state. */
  lemma {:induction false} RunKeepsInv(policy: Policy, s: AppState, events: seq<Event>)
    requires Inv(policy, s) && EnabledRun(policy, s, events)
    ensures Inv(policy, Run(policy, s, events))
    decreases |events|
  {
    if events != [] {
      EventKeepsInv(policy, s, events[0]);
      RunKeepsInv(policy, Apply(policy, s, events[0]), events[1..]);
    }
  }

  /** The page is at COMPLETE only after a successful generation. */
  lemma {:induction false} CompleteNeedsSuccess(policy: Policy, s: AppState, events: seq<Event>)
    requires Inv(policy, s) && s.step != CompleteStep && EnabledRun(policy, s, events)
    requires forall i :: 0 <= i < |events| ==> !events[i].GenerationSettled?
    ensures Run(policy, s, events).step != CompleteStep
    decreases |events|
  {
    if events != [] {
      var e := events[0];
      assert e == events[0];
      EventKeepsInv(policy, s, e);
      StepMoves(s.step);
      forall i | 0 <= i < |events[1..]|
        ensures !events[1..][i].GenerationSettled?
      {
        assert events[1..][i] == events[i + 1];
      }
      CompleteNeedsSuccess(policy, Apply(policy, s, e), events[1..]);
    }
  }

  // ---------------------------------------------------------------------
  // The failed generation
  // ---------------------------------------------------------------------

  /**
   * As written, the result page never shows its "Generation Failed" view,
   * whatever the user does: the error is only passed to the result page,
   * which is only rendered at COMPLETE, where there is never an error.
   */
  lemma FailureViewNeverShown(events: seq<Event>)
    requires EnabledRun(AsWritten, Initial, events)
    ensures !(ScreenOf(Run(AsWritten, Initial, events)).PreviewScreen? &&
              ScreenOf(Run(AsWritten, Initial, events)).view.Failed?)
  {
    RunKeepsInv(AsWritten, Initial, events);
  }

  /**
   * As written, the one failure `generatePortfolio` can report leaves the
   * user on the Design form: the message is stored but not on screen.
   */
  lemma FailureLeavesDesignForm()
    ensures var events := [StepClicked(4), GenerateClicked, GenerationSettled(Rejected(ErrorObject(FailureMessage)))];
      EnabledRun(AsWritten, Initial, events) &&
      Run(AsWritten, Initial, events).error == Some(FailureMessage) &&
      ScreenOf(Run(AsWritten, Initial, events)) == FormScreen(DesignStep)
  {
    var failure := GenerationSettled(Rejected(ErrorObject(FailureMessage)));
    var events := [StepClicked(4), GenerateClicked, failure];
    var atDesign := Apply(AsWritten, Initial, StepClicked(4));
    assert atDesign == Initial.(step := DesignStep);
    var loading := Apply(AsWritten, atDesign, GenerateClicked);
    assert loading == atDesign.(isLoading := true);
    var failed := Apply(AsWritten, loading, failure);
    assert failed == atDesign.(error := Some(FailureMessage));
    assert events[1..] == [GenerateClicked, failure];
    assert events[1..][1..] == [failure];
    assert events[1..][1..][1..] == [];
    assert Enabled(loading, failure) && EnabledRun(AsWritten, failed, []);
    assert EnabledRun(AsWritten, loading, [failure]);
    assert Enabled(atDesign, GenerateClicked);
    assert EnabledRun(AsWritten, atDesign, [GenerateClicked, failure]);
    assert Run(AsWritten, loading, [failure]) == failed;
    assert Run(AsWritten, atDesign, [GenerateClicked, failure]) == failed;
  }

  /**
   * When failures are reported, a failure with a message moves the page to
   * COMPLETE and the result page shows that message, with "Try Again".
   */
  lemma ReportedFailureIsShown(s: AppState, reason: Thrown)
    requires Inv(Reported, s) && s.isLoading
    requires CaughtMessage(reason) != ""
    ensures var r := Apply(Reported, s, GenerationSettled(Rejected(reason)));
      Inv(Reported, r) &&
      ScreenOf(r) == PreviewScreen(Failed(CaughtMessage(reason))) &&
      Buttons(ScreenOf(r).view) == [TryAgainButton] &&
      Enabled(r, ResetClicked)
  {
    EventKeepsInv(Reported, s, GenerationSettled(Rejected(reason)));
  }

  /** "Try Again" leads back to the first form with the answers kept. */
  lemma TryAgainKeepsAnswers(s: AppState)
    requires Inv(Reported, s) && Enabled(s, ResetClicked)
    ensures ScreenOf(Apply(Reported, s, ResetClicked)) == FormScreen(BasicInfoStep)
    ensures Apply(Reported, s, ResetClicked).formData == s.formData
  {
  }

  /**
   * A generation that answers with nothing left after cleaning reaches
   * COMPLETE with the waiting view, which offers no button: the page then
   * offers no event at all.
   */
  lemma EmptyResultStrands(policy: Policy, s: AppState)
    requires Inv(policy, s) && s.isLoading
    ensures var r := Apply(policy, s, GenerationSettled(Fulfilled("")));
      ScreenOf(r) == PreviewScreen(Generating) && Buttons(ScreenOf(r).view) == [] &&
      forall e :: !Enabled(r, e)
  {
  }

  /** A successful generation with content shows it on the result page, with its three buttons. */
  lemma SuccessShowsResult(policy: Policy, s: AppState, html: string)
    requires Inv(policy, s) && s.isLoading && html != ""
    ensures var r := Apply(policy, s, GenerationSettled(Fulfilled(html)));
      ScreenOf(r) == PreviewScreen(Ready(html)) && HandleCopy(r.generatedHtml) == Some(html)
  {
  }

  // ---------------------------------------------------------------------
  // The page as an object
  // ---------------------------------------------------------------------

  /** The page's state cells, updated in place by its handlers. */
  class App {
    var step: int
    var formData: PortfolioData
    var isLoading: bool
    var generatedHtml: Option<string>
    var error: Option<string>

    function State(): AppState
      reads this
    {
      AppState(step, formData, isLoading, generatedHtml, error)
    }

    constructor()
      ensures State() == Initial
    {
      step := BasicInfoStep;
      formData := InitialData;
      isLoading := false;
      generatedHtml := None;
      error := None;
    }

    method UpdateFormData(v: SectionValue)
      modifies this
      ensures State() == old(State()).(formData := WithSection(old(formData), v))
    {
      formData := WithSection(formData, v);
    }

    method Next()
      modifies this
      ensures State() == old(State()).(step := NextStep(old(step)))
    {
      step := NextStep(step);
    }

    method Prev()
      modifies this
      ensures State() == old(State()).(step := PrevStep(old(step)))
    {
      step := PrevStep(step);
    }

    method GoToStep(target: int)
      modifies this
      ensures State() == old(State()).(step := target)
    {
      step := target;
    }

    /** The result page's `onReset`. */
    method OnReset()
      modifies this
      ensures State() == Reset(old(State()))
    {
      step := BasicInfoStep;
    }

    /**
     * `handleGenerate`, run to completion: clear, generate from the form
     * data, then store the result or the message. As written a failure
     * stays on the current step; with `Reported` it moves to the result
     * page, so that its message is shown.
     */
    method HandleGenerate(service: PromptFields -> Reply, policy: Policy) returns (outcome: Settled)
      modifies this
      ensures outcome.Fulfilled? <==> service(CreatePrompt(old(formData))).Answered? && service(CreatePrompt(old(formData))).text.Some?
      ensures outcome.Fulfilled? ==> outcome.html == Cleaned(service(CreatePrompt(old(formData))).text.value)
      ensures outcome.Rejected? ==> outcome.reason == ErrorObject(FailureMessage)
      ensures State() == Settle(policy, Begin(old(State())), outcome)
    {
      isLoading := true;
      error := None;
      generatedHtml := None;
      ghost var begun := State();
      assert begun == Begin(old(State()));
      outcome := GeneratePortfolio(formData, service);
      if outcome.Fulfilled? {
        generatedHtml := Some(outcome.html);
        step := CompleteStep;
        isLoading := false;
        assert State() == begun.(generatedHtml := Some(outcome.html), step := CompleteStep, isLoading := false);
      } else {
        error := Some(CaughtMessage(outcome.reason));
        if policy == Reported {
          step := CompleteStep;
        }
        isLoading := false;
        assert State() == begun.(error := Some(CaughtMessage(outcome.reason)), isLoading := false,
          step := if policy == AsWritten then begun.step else CompleteStep);
      }
    }
  }
}
