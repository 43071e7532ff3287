/** The validity rule of a multiselect survey question: count the checked
    boxes, then accept an unanswered optional question, or any count between
    the question's minimum and maximum selections. */
module Survey {

  /** The parameters of a multiselect question that the rule reads. */
  datatype MultiselectQuestion = MultiselectQuestion(required: bool, minSelections: int, maxSelections: int)

  /** The number of checked boxes. */
  function CountChecked(checkBoxes: seq<bool>): (n: nat)
    ensures n <= |checkBoxes|
    ensures n == 0 <==> forall i :: 0 <= i < |checkBoxes| ==> !checkBoxes[i]
    decreases |checkBoxes|
  {
    if checkBoxes == [] then 0
    else CountChecked(checkBoxes[..|checkBoxes| - 1]) + (if checkBoxes[|checkBoxes| - 1] then 1 else 0)
  }

  /** CountChecked agrees with an independent definition: the multiplicity of
      `true` among the boxes. */
  lemma {:induction false} CountCheckedIsMultiplicity(checkBoxes: seq<bool>)
    ensures CountChecked(checkBoxes) == multiset(checkBoxes)[true]
    decreases |checkBoxes|
  {
    if checkBoxes != [] {
      var init := checkBoxes[..|checkBoxes| - 1];
      CountCheckedIsMultiplicity(init);
      assert checkBoxes == init + [checkBoxes[|checkBoxes| - 1]];
    }
  }

  /** The rule: an optional question may be left with nothing checked;
      otherwise the count must lie between the minimum and maximum
      selections. */
  predicate ValidSelection(question: MultiselectQuestion, checkedBoxes: int)
    ensures question.required ==>
      (ValidSelection(question, checkedBoxes) <==> question.minSelections <= checkedBoxes <= question.maxSelections)
    ensures !question.required ==>
      (ValidSelection(question, checkedBoxes) <==>
         checkedBoxes == 0 || question.minSelections <= checkedBoxes <= question.maxSelections)
  {
    (!question.required && checkedBoxes == 0) ||
    (question.minSelections <= checkedBoxes && checkedBoxes <= question.maxSelections)
  }

  /** isValid: count the checked boxes in one pass, then apply the rule. The
      boxes are only read. */
  method IsValid(question: MultiselectQuestion, checkBoxes: seq<bool>) returns (valid: bool)
    ensures valid == ValidSelection(question, multiset(checkBoxes)[true])
  {
    var checkedBoxes := 0;
    for i := 0 to |checkBoxes|
      invariant checkedBoxes == CountChecked(checkBoxes[..i])
    {
      assert checkBoxes[..i + 1][..i] == checkBoxes[..i];
      if checkBoxes[i] {
        checkedBoxes := checkedBoxes + 1;
      }
    }
    assert checkBoxes[..|checkBoxes|] == checkBoxes;
    CountCheckedIsMultiplicity(checkBoxes);
    valid := (!question.required && checkedBoxes == 0) ||
             (question.minSelections <= checkedBoxes && checkedBoxes <= question.maxSelections);
  }

  /** An optional question with nothing checked is valid, whatever its
      bounds. */
  lemma UnansweredOptionalIsValid(question: MultiselectQuestion, checkBoxes: seq<bool>)
    requires !question.required && forall i :: 0 <= i < |checkBoxes| ==> !checkBoxes[i]
    ensures ValidSelection(question, CountChecked(checkBoxes))
  {
  }

  /** The full rule, case by case: a count within [min, max] is valid
      whether or not the question is required; a required question below its
      minimum is invalid; a count above the maximum is invalid unless the
      question is optional and nothing is checked; and nothing else is valid. */
  lemma ValidSelectionCases(question: MultiselectQuestion, checkBoxes: seq<bool>)
    ensures var n := CountChecked(checkBoxes);
      (question.minSelections <= n <= question.maxSelections ==> ValidSelection(question, n)) &&
      (question.required && n < question.minSelections ==> !ValidSelection(question, n)) &&
      (n > question.maxSelections ==> (ValidSelection(question, n) <==> !question.required && n == 0)) &&
      (ValidSelection(question, n) <==>
        (!question.required && n == 0) || (question.minSelections <= n <= question.maxSelections))
  {
  }
}
