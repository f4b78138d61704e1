/** The heuristic question-subtype classifier: Hindi keyword tests on the question text.
    The same predicates drive the application's type filter and the card's markers. */
module Subtype {
  import opened Text

  const AssertionWord: string := "कथन"
  const ReasonWord: string := "कारण"
  const ListWord: string := "सूची"
  const MatchWord: string := "मिलान"
  const MapWord: string := "map"
  const MapHindiWord: string := "मानचित्र"
  const PlaceWord: string := "स्थान"

  /** The values the type filter can hold (besides "", which filters nothing). */
  const AssertionType: string := "Assertion/Reason"
  const MatchingType: string := "Matching"
  const MapType: string := "Map-based"
  const GeneralType: string := "General"

  /** An assertion/reason question mentions both the assertion and the reason keyword. */
  predicate IsAssertion(text: string)
  {
    Contains(text, AssertionWord) && Contains(text, ReasonWord)
  }

  /** A matching question mentions a list or a matching keyword. */
  predicate IsMatching(text: string)
  {
    Contains(text, ListWord) || Contains(text, MatchWord)
  }

  /** A map question mentions "map" in any ASCII case, or the Hindi map or place keyword. */
  predicate IsMapBased(text: string): (b: bool)
    ensures b <==> ContainsIgnoringCase(text, MapWord) || Contains(text, MapHindiWord) || Contains(text, PlaceWord)
  {
    LowerContainsIgnoresCase(text, MapWord);
    Contains(Lower(text), MapWord) || Contains(text, MapHindiWord) || Contains(text, PlaceWord)
  }

  /** A general question is one that none of the three keyword tests picks out. */
  predicate IsGeneral(text: string)
  {
    !IsAssertion(text) && !IsMatching(text) && !IsMapBased(text)
  }

  /** Whether a question text passes the type filter `questionType`; "" and unknown values pass everything. */
  predicate TypeMatches(questionType: string, text: string): (b: bool)
    // the General filter keeps exactly the texts that none of the three specific filters keeps
    ensures questionType == GeneralType ==>
              (b <==> !IsAssertion(text) && !IsMatching(text) && !IsMapBased(text))
    // a value outside the four known types filters nothing
    ensures (questionType != AssertionType && questionType != MatchingType && questionType != MapType
             && questionType != GeneralType) ==> b
  {
    if questionType == AssertionType then IsAssertion(text)
    else if questionType == MatchingType then IsMatching(text)
    else if questionType == MapType then IsMapBased(text)
    else if questionType == GeneralType then IsGeneral(text)
    else true
  }

  /** The "map" test ignores ASCII case: a text and its lower-cased form are classified alike. */
  lemma {:induction false} MapTestIgnoresCase(text: string)
    ensures IsMapBased(Lower(text)) == IsMapBased(text)
  {
    LowerIdempotent(text);
    CaseFreeWordSurvivesLower(text, MapHindiWord);
    CaseFreeWordSurvivesLower(text, PlaceWord);
  }

  /** "map" in any ASCII case, anywhere in the text, makes it a map question. */
  lemma MapInAnyCaseIsMapBased(text: string, i: int)
    requires 0 <= i && i + 3 <= |text|
    requires LowerChar(text[i]) == 'm' && LowerChar(text[i + 1]) == 'a' && LowerChar(text[i + 2]) == 'p'
    ensures IsMapBased(text)
  {
    assert OccursIgnoringCase(text, MapWord, i);
  }

  /** A keyword with no ASCII letters occurs in a text exactly when it occurs in the lower-cased text. */
  lemma CaseFreeWordSurvivesLower(text: string, w: string)
    requires forall k :: 0 <= k < |w| ==> !('A' <= w[k] <= 'Z') && !('a' <= w[k] <= 'z')
    ensures Contains(Lower(text), w) == Contains(text, w)
  {
    var l := Lower(text);
    if Contains(text, w) {
      var i :| OccursAt(text, w, i);
      CaseFreeOccurrence(text, l, w, i);
    }
    if Contains(l, w) {
      var i :| OccursAt(l, w, i);
      CaseFreeOccurrence(l, text, w, i);
    }
  }

  /** Two equally long texts that agree on every character except ASCII letters share every
      occurrence of a keyword without ASCII letters. */
  lemma CaseFreeOccurrence(a: string, b: string, w: string, i: int)
    requires |a| == |b|
    requires forall k :: 0 <= k < |a| && a[k] != b[k] ==> ('A' <= a[k] <= 'Z' || 'a' <= a[k] <= 'z')
    requires forall k :: 0 <= k < |w| ==> !('A' <= w[k] <= 'Z') && !('a' <= w[k] <= 'z')
    requires OccursAt(a, w, i)
    ensures OccursAt(b, w, i)
  {
    forall k | 0 <= k < |w| ensures b[i + k] == w[k] {
      assert a[i + k] == a[i..i + |w|][k];
    }
    assert b[i..i + |w|] == w;
  }
}
