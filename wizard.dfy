/** The builder page: a five-step wizard over one portfolio record, with
    Back/Next navigation that saturates at both ends and a progress
    indicator derived from the current step. */
module Wizard {
  import opened Wrappers
  import opened Portfolio

  /** The form shown by a step. */
  datatype Pane = ProfilePane | AboutPane | SkillsPane | ProjectsPane | PreviewPane

  /** One row of the steps table; `name` is the row's `label` (a reserved
      word in Dafny). */
  datatype Step = Step(id: string, name: string, pane: Pane)

  /** The steps table, in wizard order. */
  const Steps: seq<Step> := [
    Step("profile", "Profile", ProfilePane),
    Step("about", "About", AboutPane),
    Step("skills", "Skills", SkillsPane),
    Step("projects", "Projects", ProjectsPane),
    Step("preview", "Preview", PreviewPane)
  ]

  const LastStep: int := |Steps| - 1

  /** No pane appears twice in the steps table. */
  lemma StepsPanesDistinct()
    ensures forall i, j :: ValidStep(i) && ValidStep(j) && Steps[i].pane == Steps[j].pane ==> i == j
  {
    forall i, j | ValidStep(i) && ValidStep(j) && Steps[i].pane == Steps[j].pane
      ensures i == j
    {
      assert Steps[0].pane == ProfilePane && Steps[1].pane == AboutPane && Steps[2].pane == SkillsPane;
      assert Steps[3].pane == ProjectsPane && Steps[4].pane == PreviewPane;
    }
  }

  predicate ValidStep(step: int) {
    0 <= step < |Steps|
  }

  /** `handleNext`: advance by one unless already on the last step. */
  function Next(step: int): (r: int)
    ensures r == step || r == step + 1
    ensures r == step <==> step >= LastStep
    ensures ValidStep(step) ==> ValidStep(r)
  {
    if step < |Steps| - 1 then step + 1 else step
  }

  /** `handleBack`: go back by one unless already on the first step. */
  function Back(step: int): (r: int)
    ensures r == step || r == step - 1
    ensures r == step <==> step <= 0
    ensures ValidStep(step) ==> ValidStep(r)
  {
    if step > 0 then step - 1 else step
  }

  datatype Nav = NextClick | BackClick

  /** The step reached after a sequence of Next and Back clicks. */
  function Run(step: int, clicks: seq<Nav>): int
    decreases |clicks|
  {
    if clicks == [] then step
    else Run(if clicks[0] == NextClick then Next(step) else Back(step), clicks[1..])
  }

  /** Whatever the clicks, the wizard never leaves its five steps. */
  lemma {:induction false} RunStaysValid(step: int, clicks: seq<Nav>)
    requires ValidStep(step)
    ensures ValidStep(Run(step, clicks))
    decreases |clicks|
  {
    if clicks != [] {
      RunStaysValid(if clicks[0] == NextClick then Next(step) else Back(step), clicks[1..]);
    }
  }

  /** `k` Next clicks from the first step reach step `k`, capped at the last one. */
  lemma {:induction false} NextClicksSaturate(k: nat)
    ensures Run(0, seq(k, _ => NextClick)) == if k < LastStep then k else LastStep
  {
    var clicks := seq(k, _ => NextClick);
    RunNextsFrom(0, clicks);
  }

  lemma {:induction false} RunNextsFrom(step: int, clicks: seq<Nav>)
    requires 0 <= step <= LastStep
    requires forall i :: 0 <= i < |clicks| ==> clicks[i] == NextClick
    ensures Run(step, clicks) == if step + |clicks| < LastStep then step + |clicks| else LastStep
    decreases |clicks|
  {
    if clicks != [] {
      RunNextsFrom(Next(step), clicks[1..]);
    }
  }

  /** From a step strictly before the last, Next then Back returns to it;
      from a step after the first, Back then Next does. */
  lemma NextBackRoundTrip(step: int)
    ensures 0 <= step < LastStep ==> Back(Next(step)) == step
    ensures 0 < step <= LastStep ==> Next(Back(step)) == step
  {
  }

  datatype Action = SaveButton | NextButton

  /** The right-hand button: Save on the last step, Next everywhere else. */
  function PrimaryAction(step: int): (a: Action)
    ensures a == SaveButton <==> step == LastStep
  {
    if step == |Steps| - 1 then SaveButton else NextButton
  }

  /** Back is disabled on the first step. */
  predicate BackDisabled(step: int) {
    step == 0
  }

  /** On every valid step, Next is offered exactly where it would move the
      wizard, and Back is disabled exactly where it would not. */
  lemma ButtonsMatchNavigation(step: int)
    requires ValidStep(step)
    ensures PrimaryAction(step) == NextButton <==> Next(step) != step
    ensures BackDisabled(step) <==> Back(step) == step
  {
  }

  /** One circle of the progress indicator and the connector after it (none
      after the last circle). */
  datatype Marker = Marker(number: int, name: string, reached: bool, connector: Option<bool>)

  /** The progress indicator for the current step. */
  function Progress(step: int): (ms: seq<Marker>)
    ensures |ms| == |Steps|
    ensures forall i :: 0 <= i < |ms| ==>
      && ms[i].number == i + 1
      && ms[i].name == Steps[i].name
      && (ms[i].reached <==> i <= step)
      && (ms[i].connector.Some? <==> i < LastStep)
      && (ms[i].connector == Some(true) <==> i < step && i < LastStep)
  {
    seq(|Steps|, i requires 0 <= i < |Steps| =>
      Marker(i + 1, Steps[i].name, i <= step,
             if i < |Steps| - 1 then Some(i < step) else None))
  }

  /** The number of reached circles. */
  function ReachedCount(ms: seq<Marker>): nat
  {
    if ms == [] then 0 else (if ms[0].reached then 1 else 0) + ReachedCount(ms[1..])
  }

  lemma {:induction false} ReachedCountPrefix(ms: seq<Marker>, k: int)
    requires 0 <= k <= |ms|
    requires forall i :: 0 <= i < |ms| ==> (ms[i].reached <==> i < k)
    ensures ReachedCount(ms) == k
    decreases |ms|
  {
    if ms != [] {
      ReachedCountPrefix(ms[1..], if k == 0 then 0 else k - 1);
    }
  }

  /** On a valid step the indicator shows exactly `step + 1` reached circles,
      so it tells the steps apart. */
  lemma ProgressShowsStep(step: int)
    requires ValidStep(step)
    ensures ReachedCount(Progress(step)) == step + 1
  {
    ReachedCountPrefix(Progress(step), step + 1);
  }

  /** The builder page's state: the current step and the record being edited. */
  class Builder {
    var currentStep: int
    var portfolioData: PortfolioData

    ghost predicate Valid()
      reads this
    {
      ValidStep(currentStep)
    }

    /** The wizard opens on the first step with an empty record. */
    constructor ()
      ensures Valid()
      ensures currentStep == 0 && portfolioData == EmptyPortfolio
    {
      currentStep := 0;
      portfolioData := EmptyPortfolio;
    }

    /** The pane the current step shows. Each pane belongs to exactly one
        step, so the pane on screen identifies the step; the last step, where
        Save replaces Next, shows the preview. */
    function CurrentPane(): (p: Pane)
      reads this
      requires Valid()
      ensures forall s :: ValidStep(s) ==> (Steps[s].pane == p <==> s == currentStep)
      ensures p == PreviewPane <==> currentStep == LastStep
    {
      StepsPanesDistinct();
      Steps[currentStep].pane
    }

    method HandleNext()
      requires Valid()
      modifies this`currentStep
      ensures Valid() && currentStep == Next(old(currentStep))
    {
      if currentStep < |Steps| - 1 {
        currentStep := currentStep + 1;
      }
    }

    method HandleBack()
      requires Valid()
      modifies this`currentStep
      ensures Valid() && currentStep == Back(old(currentStep))
    {
      if currentStep > 0 {
        currentStep := currentStep - 1;
      }
    }

    /** `updateData`, handed to every step: replaces the whole record. */
    method UpdateData(data: PortfolioData)
      modifies this`portfolioData
      ensures portfolioData == data
    {
      portfolioData := data;
    }
  }
}
