/**
 * The state behind the floating questionnaire widget: the step shown, the answer recorded for each
 * element, and whether the questionnaire is complete. Initialising gives every element an empty
 * answer; choosing a button records it and moves to the step the button names, or completes the
 * questionnaire when it names none.
 *
 * The button-group element is described here by the fields the widget uses (its id, name and
 * options, each with a label and an optional next step). The empty answer of each kind of element
 * is the parameter `emptyContent`.
 */
module FloatingWidgetState {
  import opened Wrappers
  import Seqs
  import EV = ElementValues
  import QE = QuestionnaireElements

  /** One button of a button group: its label and the step it leads to, if any. */
  datatype ButtonOption = ButtonOption(text: string, nextStep: Option<int>)

  /** A `ButtonGroupElement`: the fields the widget reads. */
  datatype ButtonGroupElement = ButtonGroupElement(id: int, name: string, options: seq<ButtonOption>)

  /** A `FullQuestionnaire`: its name and elements. */
  datatype FullQuestionnaire = FullQuestionnaire(name: string, elements: seq<QE.Element>)

  /** The view model's flows and fields. */
  datatype ViewModelState = ViewModelState(
    currentStep: int,
    elementValues: EV.ValueMap,
    isCompleted: bool,
    questionnaire: Option<FullQuestionnaire>,
    pendingQuestionnaireId: Option<int>)

  /** A new view model: step 1, no answers, not complete. */
  const Initial: ViewModelState := ViewModelState(1, [], false, None, None)

  /** `emptyValueForElement` */
  function EmptyValue(e: QE.Element, emptyContent: QE.Element -> EV.Content): EV.ElementValue
  {
    EV.ElementValue(e.id, e.name, emptyContent(e))
  }

  /** The map `initialize` fills: one empty answer per element, put in order. */
  function InitialValues(elements: seq<QE.Element>, emptyContent: QE.Element -> EV.Content): EV.ValueMap
  {
    if |elements| == 0 then []
    else
      var last := elements[|elements| - 1];
      EV.Put(InitialValues(elements[..|elements| - 1], emptyContent), last.id, EmptyValue(last, emptyContent))
  }

  /** The ids of the elements. */
  function ElementIds(elements: seq<QE.Element>): set<int>
  {
    set i | 0 <= i < |elements| :: elements[i].id
  }

  /** `initialize` */
  function Initialized(st: ViewModelState, questionnaire: FullQuestionnaire, triggerUid: Option<int>,
                      emptyContent: QE.Element -> EV.Content): ViewModelState
  {
    st.(questionnaire := Some(questionnaire), pendingQuestionnaireId := triggerUid,
        elementValues := InitialValues(questionnaire.elements, emptyContent))
  }

  function HasLabel(text: string): ButtonOption -> bool
  {
    (o: ButtonOption) => o.text == text
  }

  /** `options.firstOrNull { it.label == selectedButton }?.nextStep` */
  function NextStep(options: seq<ButtonOption>, selectedButton: string): (r: Option<int>)
    ensures r.Some? <==> exists i :: 0 <= i < |options| && options[i].text == selectedButton && options[i].nextStep.Some?
                                   && forall j :: 0 <= j < i ==> options[j].text != selectedButton
    ensures r.Some? ==> exists i :: 0 <= i < |options| && options[i].text == selectedButton && options[i].nextStep == r
                                  && forall j :: 0 <= j < i ==> options[j].text != selectedButton
  {
    var found := Seqs.Find(options, HasLabel(selectedButton));
    if found.Some? then
      assert exists i :: 0 <= i < |options| && options[i] == found.value && HasLabel(selectedButton)(options[i])
                         && forall j :: 0 <= j < i ==> !HasLabel(selectedButton)(options[j]);
      found.value.nextStep
    else None
  }

  /** The answer a button choice records. */
  function ButtonValue(button: ButtonGroupElement, selectedButton: string): EV.ElementValue
  {
    EV.ElementValue(button.id, button.name, EV.ButtonGroupValue(selectedButton))
  }

  /** `handleButtonSelection` */
  function Selected(st: ViewModelState, button: ButtonGroupElement, selectedButton: string): ViewModelState
  {
    var values := EV.Put(st.elementValues, button.id, ButtonValue(button, selectedButton));
    var next := NextStep(button.options, selectedButton);
    if next.Some? then st.(elementValues := values, currentStep := next.value)
    else st.(elementValues := values, isCompleted := true)
  }

  /** `updateElementValue` */
  function Updated(st: ViewModelState, elementId: int, value: EV.ElementValue): ViewModelState
  {
    st.(elementValues := EV.Put(st.elementValues, elementId, value))
  }

  /** After `initialize` exactly the element ids have answers. */
  lemma {:induction false} InitialValuesKeys(elements: seq<QE.Element>, emptyContent: QE.Element -> EV.Content)
    ensures EV.Keys(InitialValues(elements, emptyContent)) == ElementIds(elements)
  {
    if |elements| > 0 {
      var n := |elements| - 1;
      var init := elements[..n];
      InitialValuesKeys(init, emptyContent);
      EV.PutGet(InitialValues(init, emptyContent), elements[n].id, EmptyValue(elements[n], emptyContent), elements[n].id);
      assert ElementIds(elements) == ElementIds(init) + {elements[n].id} by {
        forall k | k in ElementIds(elements) ensures k in ElementIds(init) + {elements[n].id} {
          var i :| 0 <= i < |elements| && elements[i].id == k;
          if i < n {
            assert init[i] == elements[i];
          }
        }
        forall k | k in ElementIds(init) ensures k in ElementIds(elements) {
          var i :| 0 <= i < |init| && init[i].id == k;
          assert elements[i] == init[i];
        }
      }
    }
  }

  /** Each element's answer after `initialize` is its empty answer, unless a later element has the same id. */
  lemma {:induction false} InitialValuesEmpty(elements: seq<QE.Element>, emptyContent: QE.Element -> EV.Content, i: int)
    requires 0 <= i < |elements|
    requires forall j :: i < j < |elements| ==> elements[j].id != elements[i].id
    ensures EV.Get(InitialValues(elements, emptyContent), elements[i].id) == Some(EmptyValue(elements[i], emptyContent))
  {
    var n := |elements| - 1;
    var init := elements[..n];
    EV.PutGet(InitialValues(init, emptyContent), elements[n].id, EmptyValue(elements[n], emptyContent), elements[i].id);
    if i < n {
      assert init[i] == elements[i];
      InitialValuesEmpty(init, emptyContent, i);
    }
  }

  /**
   * A button choice records the button's answer under its id and leaves every other answer as it
   * was; it then moves to the step the chosen button names, or completes the questionnaire.
   */
  lemma SelectionRecordsAndNavigates(st: ViewModelState, button: ButtonGroupElement, selectedButton: string, other: int)
    ensures var r := Selected(st, button, selectedButton);
            && EV.Get(r.elementValues, button.id) == Some(ButtonValue(button, selectedButton))
            && (other != button.id ==> EV.Get(r.elementValues, other) == EV.Get(st.elementValues, other))
            && EV.Keys(r.elementValues) == EV.Keys(st.elementValues) + {button.id}
            && (NextStep(button.options, selectedButton).Some? ==>
                  r.currentStep == NextStep(button.options, selectedButton).value && r.isCompleted == st.isCompleted)
            && (NextStep(button.options, selectedButton).None? ==> r.isCompleted && r.currentStep == st.currentStep)
  {
    EV.PutGet(st.elementValues, button.id, ButtonValue(button, selectedButton), other);
  }

  /** `updateElementValue` changes the given key only. */
  lemma UpdateChangesOnlyItsKey(st: ViewModelState, elementId: int, value: EV.ElementValue, other: int)
    ensures var r := Updated(st, elementId, value);
            && EV.Get(r.elementValues, elementId) == Some(value)
            && (other != elementId ==> EV.Get(r.elementValues, other) == EV.Get(st.elementValues, other))
            && r.currentStep == st.currentStep && r.isCompleted == st.isCompleted
  {
    EV.PutGet(st.elementValues, elementId, value, other);
  }

  /** A completed questionnaire stays completed whatever happens next. */
  lemma CompletionIsFinal(st: ViewModelState, button: ButtonGroupElement, selectedButton: string,
                          elementId: int, value: EV.ElementValue, questionnaire: FullQuestionnaire,
                          triggerUid: Option<int>, emptyContent: QE.Element -> EV.Content)
    requires st.isCompleted
    ensures Selected(st, button, selectedButton).isCompleted
    ensures Updated(st, elementId, value).isCompleted
    ensures Initialized(st, questionnaire, triggerUid, emptyContent).isCompleted
  {
  }

  /** `FloatingWidgetViewModel` */
  class FloatingWidgetViewModel {
    var currentStep: int
    var elementValues: EV.ValueMap
    var isCompleted: bool
    var questionnaire: Option<FullQuestionnaire>
    var pendingQuestionnaireId: Option<int>

    function Model(): ViewModelState
      reads this
    {
      ViewModelState(currentStep, elementValues, isCompleted, questionnaire, pendingQuestionnaireId)
    }

    constructor ()
      ensures Model() == Initial
    {
      currentStep := 1;
      elementValues := [];
      isCompleted := false;
      questionnaire := None;
      pendingQuestionnaireId := None;
    }

    /** `initialize`: the `forEach` that puts an empty answer per element. */
    method Initialize(questionnaire: FullQuestionnaire, triggerUid: Option<int>, emptyContent: QE.Element -> EV.Content)
      modifies this
      ensures Model() == Initialized(old(Model()), questionnaire, triggerUid, emptyContent)
    {
      this.questionnaire := Some(questionnaire);
      this.pendingQuestionnaireId := triggerUid;
      var elements := questionnaire.elements;
      var initialValues: EV.ValueMap := [];
      for i := 0 to |elements|
        invariant initialValues == InitialValues(elements[..i], emptyContent)
      {
        assert elements[..i + 1][..i] == elements[..i];
        initialValues := EV.Put(initialValues, elements[i].id, EmptyValue(elements[i], emptyContent));
      }
      assert elements[..|elements|] == elements;
      elementValues := initialValues;
    }

    /** `handleButtonSelection` */
    method HandleButtonSelection(button: ButtonGroupElement, selectedButton: string)
      modifies this
      ensures Model() == Selected(old(Model()), button, selectedButton)
    {
      elementValues := EV.Put(elementValues, button.id, ButtonValue(button, selectedButton));
      var nextStep := NextStep(button.options, selectedButton);
      if nextStep.Some? {
        currentStep := nextStep.value;
      } else {
        isCompleted := true;
      }
    }

    /** `updateElementValue` */
    method UpdateElementValue(elementId: int, value: EV.ElementValue)
      modifies this
      ensures Model() == Updated(old(Model()), elementId, value)
    {
      elementValues := EV.Put(elementValues, elementId, value);
    }
  }
}
