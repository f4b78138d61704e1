/** The question card: a one-shot answer choice, its correctness, the per-option highlighting,
    the difficulty badge and the subtype markers. */
module QuestionCardModel {
  import opened Types
  import opened Subtype

  /** How an option button is drawn. */
  datatype Highlight =
    | Neutral          // nothing chosen yet, or an uninvolved option
    | ChosenCorrect    // the chosen option, and it is the key
    | ChosenWrong      // the chosen option, and it is not the key
    | RevealedKey      // the key, shown after a wrong choice
  {
    predicate IsGreen() { ChosenCorrect? || RevealedKey? }
    predicate IsRed() { ChosenWrong? }
  }

  /** The highlight of option `key` given the current choice and the correct option. */
  function OptionHighlight(selected: Option<OptionKey>, correct: OptionKey, key: OptionKey): (h: Highlight)
    ensures selected.None? ==> h == Neutral
    ensures h.IsGreen() <==> selected.Some? && key == correct
    ensures h.IsRed() <==> selected == Some(key) && key != correct
    ensures selected == Some(key) ==> h != Neutral
  {
    if selected == Some(key) then
      if key == correct then ChosenCorrect else ChosenWrong
    else if selected.Some? && key == correct then RevealedKey
    else Neutral
  }

  /** Once an answer is chosen, exactly one option is green (the key) and at most one is red
      (the choice, when wrong). */
  lemma AnsweredCardColours(chosen: OptionKey, correct: OptionKey)
    ensures forall k :: OptionHighlight(Some(chosen), correct, k).IsGreen() <==> k == correct
    ensures forall k :: OptionHighlight(Some(chosen), correct, k).IsRed() ==> k == chosen
    ensures forall k :: k != chosen && k != correct ==> OptionHighlight(Some(chosen), correct, k) == Neutral
  {
  }

  /** The state change of one option click: the first choice sticks, later ones are ignored. */
  function Click(selected: Option<OptionKey>, key: OptionKey): (r: Option<OptionKey>)
    ensures selected.Some? ==> r == selected
    ensures selected.None? ==> r == Some(key)
  {
    if selected.Some? then selected else Some(key)
  }

  /** The choice after a series of clicks. */
  function ClickAll(selected: Option<OptionKey>, keys: seq<OptionKey>): (r: Option<OptionKey>)
    // a choice exists afterwards exactly when one existed before or some option was clicked
    ensures r.None? <==> selected.None? && keys == []
    decreases |keys|
  {
    if keys == [] then selected else ClickAll(Click(selected, keys[0]), keys[1..])
  }

  /** The first answer is final: after any series of clicks the choice is the first key clicked
      on a fresh card, and an existing choice never changes. */
  lemma {:induction false} FirstAnswerIsFinal(selected: Option<OptionKey>, keys: seq<OptionKey>)
    ensures selected.Some? ==> ClickAll(selected, keys) == selected
    ensures selected.None? && keys != [] ==> ClickAll(selected, keys) == Some(keys[0])
    ensures selected.None? && keys == [] ==> ClickAll(selected, keys) == None
    decreases |keys|
  {
    if keys != [] {
      FirstAnswerIsFinal(Click(selected, keys[0]), keys[1..]);
    }
  }

  datatype BadgeColour = Green | Yellow | Red

  /** The difficulty badge: Easy is green, Medium yellow, everything else red. */
  function DifficultyBadge(d: DifficultyLevel): (c: BadgeColour)
    ensures c == Green <==> d == Easy
    ensures c == Yellow <==> d == Medium
    ensures c == Red <==> d != Easy && d != Medium
  {
    if d == Easy then Green else if d == Medium then Yellow else Red
  }

  class QuestionCard {
    const question: Question
    var selectedOption: Option<OptionKey>
    var showExplanation: bool

    /** The explanation is shown exactly when an answer has been chosen. */
    ghost predicate Valid()
      reads this
    {
      showExplanation <==> selectedOption.Some?
    }

    constructor (q: Question)
      ensures Valid()
      ensures question == q && selectedOption == None && !showExplanation
    {
      question := q;
      selectedOption := None;
      showExplanation := false;
    }

    /** A click on option `key`: the first one records the choice and reveals the explanation. */
    method HandleOptionClick(key: OptionKey)
      requires Valid()
      modifies this
      ensures Valid()
      ensures selectedOption == Click(old(selectedOption), key)
      ensures old(selectedOption).Some? ==> showExplanation == old(showExplanation)
      ensures old(selectedOption).None? ==> selectedOption == Some(key) && showExplanation
    {
      if selectedOption.Some? {
        return;
      }
      selectedOption := Some(key);
      showExplanation := true;
    }

    /** The chosen answer is the key; false before any choice. The chosen option is drawn as a
        correct choice exactly when the card is correct. */
    function IsCorrect(): (b: bool)
      reads this
      ensures b ==> selectedOption.Some?
      ensures b <==> selectedOption.Some? && HighlightOf(selectedOption.value) == ChosenCorrect
    {
      selectedOption == Some(question.correctOption)
    }

    /** Option buttons are disabled once an answer is chosen: exactly while the explanation is
        shown, and then the chosen option is drawn highlighted. */
    function OptionsDisabled(): (b: bool)
      reads this
      ensures Valid() ==> (b <==> showExplanation)
      ensures b <==> selectedOption.Some? && HighlightOf(selectedOption.value) != Neutral
    {
      selectedOption.Some?
    }

    function HighlightOf(key: OptionKey): Highlight
      reads this
    {
      OptionHighlight(selectedOption, question.correctOption, key)
    }

    /** The card's markers: the assertion/reason and matching keyword tests of the type filter. */
    function Markers(): (m: (bool, bool))
      ensures m.0 == TypeMatches(AssertionType, question.questionText)
      ensures m.1 == TypeMatches(MatchingType, question.questionText)
    {
      (IsAssertion(question.questionText), IsMatching(question.questionText))
    }

    function Badge(): BadgeColour
    {
      DifficultyBadge(question.difficulty)
    }
  }
}
