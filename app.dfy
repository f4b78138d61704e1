/** The application state controller: the bookmark list, the four select-or-clear filters, the
    search step that replaces the question list, the derived filtered view, and the local admin
    login. Pure rules are functions; the state cells are the fields of class `App`. */
module AppState {
  import opened Types
  import opened Text
  import opened Seqs
  import opened Subtype
  import opened GeminiService
  import QuestionCardModel

  /** The stored difficulty filter: '' (any difficulty) or one level. */
  datatype DifficultyFilter = AnyDifficulty | OnlyDifficulty(level: DifficultyLevel)
  {
    /** The value handed to the generation service ("" for no filter). */
    function Name(): (r: string)
      ensures r != "" <==> OnlyDifficulty?
    {
      if AnyDifficulty? then "" else level.Name()
    }

    predicate Matches(q: Question)
    {
      AnyDifficulty? || q.difficulty == level
    }
  }

  datatype Tab = BrowseTab | SearchTab | BookmarksTab

  /** The effective values of one search; "" means the axis is not filtered. */
  datatype Filters = Filters(query: string, categoryId: string, era: string, difficulty: DifficultyFilter, questionType: string)
  {
    /** Some query text or filter is set. */
    predicate AnyActive()
    {
      query != "" || categoryId != "" || era != "" || difficulty.OnlyDifficulty? || questionType != ""
    }
  }

  /** The explicit arguments of one search; None falls back to the stored value. */
  datatype Overrides = Overrides(
    categoryId: Option<string>,
    era: Option<string>,
    difficulty: Option<DifficultyFilter>,
    questionType: Option<string>,
    query: Option<string>)

  const NoOverrides: Overrides := Overrides(None, None, None, None, None)

  function Pick<T>(o: Option<T>, stored: T): T
  {
    if o.Some? then o.value else stored
  }

  /** The effective filters of a search: explicit arguments over the stored state. */
  function Resolve(o: Overrides, stored: Filters): (f: Filters)
    // an argument that is given wins on its axis; an absent one falls back to the stored value
    ensures o.query.Some? ==> f.query == o.query.value
    ensures o.query.None? ==> f.query == stored.query
    ensures o.categoryId.Some? ==> f.categoryId == o.categoryId.value
    ensures o.categoryId.None? ==> f.categoryId == stored.categoryId
    ensures o.era.Some? ==> f.era == o.era.value
    ensures o.era.None? ==> f.era == stored.era
    ensures o.difficulty.Some? ==> f.difficulty == o.difficulty.value
    ensures o.difficulty.None? ==> f.difficulty == stored.difficulty
    ensures o.questionType.Some? ==> f.questionType == o.questionType.value
    ensures o.questionType.None? ==> f.questionType == stored.questionType
  {
    Filters(Pick(o.query, stored.query), Pick(o.categoryId, stored.categoryId), Pick(o.era, stored.era),
            Pick(o.difficulty, stored.difficulty), Pick(o.questionType, stored.questionType))
  }

  /** A search without arguments uses the stored filters; arguments for every filter axis replace
      the stored ones on those axes and leave the stored query in place. */
  lemma ResolveFallsBack(stored: Filters, categoryId: string, era: string, difficulty: DifficultyFilter, questionType: string)
    ensures Resolve(NoOverrides, stored) == stored
    ensures Resolve(Overrides(Some(categoryId), Some(era), Some(difficulty), Some(questionType), None), stored)
            == Filters(stored.query, categoryId, era, difficulty, questionType)
  {
  }

  /** The service call a search with filters `f` makes: the category id is resolved to its
      display name, the difficulty to its name ("" for none). */
  function SearchArgs(f: Filters): (a: QueryArgs)
    ensures a.query == f.query && a.era == f.era && a.questionType == f.questionType
    ensures a.category == CategoryName(f.categoryId)
    ensures a.difficulty == "" <==> f.difficulty == AnyDifficulty
    ensures f.difficulty.OnlyDifficulty? ==> a.difficulty == f.difficulty.level.Name()
  {
    QueryArgs(f.query, f.era, CategoryName(f.categoryId), f.difficulty.Name(), f.questionType)
  }

  /** Served by the generation service, a search answers [] or exactly the parsed reply to a prompt
      that carries the query, the era, the chosen difficulty and the question type of its filters. */
  lemma SearchPromptCarriesFilters(f: Filters, generate: string -> GenerationOutcome)
    ensures var prompt := QueryPrompt(SearchArgs(f));
      var r := FetchQuestionsByQuery(SearchArgs(f), generate);
      && (r == [] || (generate(prompt).Responded? && generate(prompt).parsed == Some(r)))
      && (f.query != "" ==> Contains(prompt, f.query))
      && (f.era != "" ==> Contains(prompt, f.era))
      && (f.difficulty.OnlyDifficulty? ==> Contains(prompt, f.difficulty.Name()))
      && (f.questionType != "" ==> Contains(prompt, f.questionType))
  {
    ServiceAnswer(SearchArgs(f), generate);
  }

  /** The tab shown after a search: the bookmarks tab is kept; otherwise the search tab exactly when
      some filter or query is set, and the browse tab when none is. */
  function TabAfterSearch(current: Tab, f: Filters): (t: Tab)
    ensures current == BookmarksTab ==> t == BookmarksTab
    ensures current != BookmarksTab ==> t != BookmarksTab && (t == SearchTab <==> f.AnyActive())
  {
    if current == BookmarksTab then current
    else if f.AnyActive() then SearchTab
    else BrowseTab
  }

  /** The value a select-or-clear toggle stores: choosing the current value clears the filter. */
  function Toggle<T(==)>(current: T, chosen: T, cleared: T): (r: T)
    ensures current == chosen ==> r == cleared
    ensures current != chosen ==> r == chosen
  {
    if current == chosen then cleared else chosen
  }

  // ---------------------------------------------------------------- bookmarks

  ghost function Ids(s: seq<Question>): set<string>
  {
    set i | 0 <= i < |s| :: s[i].id
  }

  ghost predicate UniqueIds(s: seq<Question>)
  {
    forall i, j :: 0 <= i < j < |s| ==> s[i].id != s[j].id
  }

  /** Some entry of `s` has id `id`: the id is among the list's ids. */
  predicate HasId(s: seq<Question>, id: string): (b: bool)
    ensures b <==> id in Ids(s)
  {
    exists i :: 0 <= i < |s| && s[i].id == id
  }

  /** The id of a question, as a function value. */
  function QuestionId(q: Question): string
  {
    q.id
  }

  /** The test `b.id !== id` of the toggle's filter. */
  function IdOtherThan(id: string): Question -> bool
  {
    (b: Question) => b.id != id
  }

  /** The entries whose id differs from `id`, in their order. */
  function RemoveId(s: seq<Question>, id: string): (r: seq<Question>)
    ensures !HasId(r, id)
    ensures forall b :: b in r <==> b in s && b.id != id
  {
    Filter(s, IdOtherThan(id))
  }

  /** The bookmark list after toggling `q`: every entry with its id removed when there is one,
      otherwise `q` appended. */
  function Toggled(prev: seq<Question>, q: Question): (r: seq<Question>)
    ensures HasId(r, q.id) <==> !HasId(prev, q.id)
    ensures !HasId(prev, q.id) ==> r == prev + [q]
  {
    if HasId(prev, q.id) then RemoveId(prev, q.id)
    else
      assert (prev + [q])[|prev|] == q;
      prev + [q]
  }

  /** Removing an id keeps every other entry, in order and with its multiplicity, and nothing else. */
  lemma RemoveIdKeepsOthers(s: seq<Question>, id: string)
    ensures SubsequenceOf(RemoveId(s, id), s)
    ensures forall b :: multiset(RemoveId(s, id))[b] == if b.id != id then multiset(s)[b] else 0
    ensures Ids(RemoveId(s, id)) == Ids(s) - {id}
  {
    var p := IdOtherThan(id);
    var r := RemoveId(s, id);
    FilterIsSubsequence(s, p);
    forall b: Question ensures multiset(r)[b] == if b.id != id then multiset(s)[b] else 0 {
      FilterMultiplicity(s, p, b);
    }
    RemoveIdIds(s, id);
  }

  lemma RemoveIdIds(s: seq<Question>, id: string)
    ensures Ids(RemoveId(s, id)) == Ids(s) - {id}
  {
    var r := RemoveId(s, id);
    forall x | x in Ids(r) ensures x in Ids(s) - {id} {
      var i :| 0 <= i < |r| && r[i].id == x;
      assert r[i] in s;
      var j :| 0 <= j < |s| && s[j] == r[i];
    }
    forall x | x in Ids(s) - {id} ensures x in Ids(r) {
      var j :| 0 <= j < |s| && s[j].id == x;
      assert s[j] in r;
      var i :| 0 <= i < |r| && r[i] == s[j];
    }
  }

  lemma RemoveIdKeepsUnique(s: seq<Question>, id: string)
    requires UniqueIds(s)
    ensures UniqueIds(RemoveId(s, id))
  {
    FilterKeepsKeysDistinct(s, IdOtherThan(id), QuestionId);
  }

  /** Toggling an absent question appends it and leaves every existing entry and its position alone. */
  lemma ToggleAbsentAppends(prev: seq<Question>, q: Question)
    requires !HasId(prev, q.id)
    ensures Toggled(prev, q) == prev + [q]
    ensures forall i :: 0 <= i < |prev| ==> Toggled(prev, q)[i] == prev[i]
    ensures Toggled(prev, q)[|prev|] == q
  {
  }

  /** Toggling a present question removes every entry with its id and keeps the others in order. */
  lemma TogglePresentRemoves(prev: seq<Question>, q: Question)
    requires HasId(prev, q.id)
    ensures SubsequenceOf(Toggled(prev, q), prev)
    ensures !HasId(Toggled(prev, q), q.id)
    ensures forall b :: multiset(Toggled(prev, q))[b] == if b.id != q.id then multiset(prev)[b] else 0
  {
    RemoveIdKeepsOthers(prev, q.id);
  }

  /** A toggle is a symmetric difference on the set of bookmarked ids. */
  lemma ToggleIds(prev: seq<Question>, q: Question)
    ensures Ids(Toggled(prev, q)) == if q.id in Ids(prev) then Ids(prev) - {q.id} else Ids(prev) + {q.id}
  {
    if HasId(prev, q.id) {
      RemoveIdKeepsOthers(prev, q.id);
    } else {
      var r := prev + [q];
      assert r[|prev|] == q;
      forall x | x in Ids(r) ensures x in Ids(prev) + {q.id} {
        var i :| 0 <= i < |r| && r[i].id == x;
        if i < |prev| { assert prev[i] == r[i]; }
      }
      forall x | x in Ids(prev) ensures x in Ids(r) {
        var i :| 0 <= i < |prev| && prev[i].id == x;
        assert r[i] == prev[i];
      }
    }
  }

  /** Toggling keeps bookmark ids unique. */
  lemma ToggleKeepsUnique(prev: seq<Question>, q: Question)
    requires UniqueIds(prev)
    ensures UniqueIds(Toggled(prev, q))
  {
    if HasId(prev, q.id) {
      RemoveIdKeepsUnique(prev, q.id);
    } else {
      var r := prev + [q];
      forall i, j | 0 <= i < j < |r| ensures r[i].id != r[j].id {
        if j == |prev| {
          assert r[i] == prev[i];
        } else {
          assert r[i] == prev[i] && r[j] == prev[j];
        }
      }
    }
  }

  /** Toggling the same question twice restores the set of bookmarked ids; when the question was
      absent it restores the list itself. */
  lemma ToggleTwice(prev: seq<Question>, q: Question)
    ensures Ids(Toggled(Toggled(prev, q), q)) == Ids(prev)
    ensures !HasId(prev, q.id) ==> Toggled(Toggled(prev, q), q) == prev
  {
    var once := Toggled(prev, q);
    ToggleIds(prev, q);
    ToggleIds(once, q);
    if !HasId(prev, q.id) {
      var p := IdOtherThan(q.id);
      FilterAppend(prev, [q], p);
      FilterAllPass(prev, p);
      assert Filter([q], p) == [];
      assert Toggled(once, q) == RemoveId(prev + [q], q.id);
    }
  }

  // ---------------------------------------------------------------- derived view

  function DifficultyIs(level: DifficultyLevel): Question -> bool
  {
    (q: Question) => q.difficulty == level
  }

  function TypeTest(questionType: string): Question -> bool
  {
    (q: Question) => TypeMatches(questionType, q.questionText)
  }

  predicate IsKnownType(questionType: string)
  {
    questionType == AssertionType || questionType == MatchingType || questionType == MapType || questionType == GeneralType
  }

  /** The displayed questions: the fetched list filtered by difficulty when one is selected, then by
      the subtype test when a known type is selected. */
  function FilteredQuestions(questions: seq<Question>, difficulty: DifficultyFilter, questionType: string): (r: seq<Question>)
    ensures forall i :: 0 <= i < |r| ==>
              r[i] in questions && difficulty.Matches(r[i]) && TypeMatches(questionType, r[i].questionText)
    ensures forall i :: 0 <= i < |questions| ==>
              (difficulty.Matches(questions[i]) && TypeMatches(questionType, questions[i].questionText) ==> questions[i] in r)
    ensures difficulty.OnlyDifficulty? ==> forall i :: 0 <= i < |r| ==> r[i].difficulty == difficulty.level
    ensures questionType == GeneralType ==> forall i :: 0 <= i < |r| ==>
              !IsAssertion(r[i].questionText) && !IsMatching(r[i].questionText) && !IsMapBased(r[i].questionText)
  {
    var byDifficulty := if difficulty.OnlyDifficulty? then Filter(questions, DifficultyIs(difficulty.level)) else questions;
    if IsKnownType(questionType) then Filter(byDifficulty, TypeTest(questionType)) else byDifficulty
  }

  /** The view keeps the fetched order. */
  lemma FilteredKeepsOrder(questions: seq<Question>, difficulty: DifficultyFilter, questionType: string)
    ensures SubsequenceOf(FilteredQuestions(questions, difficulty, questionType), questions)
  {
    if difficulty.OnlyDifficulty? && IsKnownType(questionType) {
      FilterTwiceIsSubsequence(questions, DifficultyIs(difficulty.level), TypeTest(questionType));
    } else if difficulty.OnlyDifficulty? {
      FilterIsSubsequence(questions, DifficultyIs(difficulty.level));
    } else if IsKnownType(questionType) {
      FilterIsSubsequence(questions, TypeTest(questionType));
    } else {
      SubsequenceReflexive(questions);
    }
  }

  /** Every occurrence of a question that passes both filters is kept, and no other question appears. */
  lemma FilteredMultiplicity(questions: seq<Question>, difficulty: DifficultyFilter, questionType: string, q: Question)
    ensures multiset(FilteredQuestions(questions, difficulty, questionType))[q]
            == if difficulty.Matches(q) && TypeMatches(questionType, q.questionText) then multiset(questions)[q] else 0
  {
    var byDifficulty := if difficulty.OnlyDifficulty? then Filter(questions, DifficultyIs(difficulty.level)) else questions;
    if difficulty.OnlyDifficulty? {
      FilterMultiplicity(questions, DifficultyIs(difficulty.level), q);
    }
    if IsKnownType(questionType) {
      FilterMultiplicity(byDifficulty, TypeTest(questionType), q);
    }
  }

  /** With no difficulty and an empty or unrecognised type the view is the fetched list itself. */
  lemma UnfilteredViewIsEverything(questions: seq<Question>, questionType: string)
    requires questionType != AssertionType && questionType != MatchingType
    requires questionType != MapType && questionType != GeneralType
    ensures FilteredQuestions(questions, AnyDifficulty, questionType) == questions
  {
  }

  /** The card markers agree with the type filter: a question shows the assertion (matching) marker
      exactly when the Assertion/Reason (Matching) filter keeps it. */
  lemma MarkersAgreeWithFilter(q: Question)
    ensures IsAssertion(q.questionText) <==> FilteredQuestions([q], AnyDifficulty, AssertionType) == [q]
    ensures IsMatching(q.questionText) <==> FilteredQuestions([q], AnyDifficulty, MatchingType) == [q]
  {
    assert [q][1..] == [];
  }

  // ---------------------------------------------------------------- persisted state

  /** What the bookmark key of local storage held at start-up. */
  datatype StoredBookmarks = NoSavedBookmarks | UnparsableBookmarks | ParsedBookmarks(items: seq<Question>)

  /** The three local-storage keys read at start-up. */
  datatype Storage = Storage(bookmarks: StoredBookmarks, adminAuth: Option<string>, adminPhoto: Option<string>)

  const AdminUsername: string := "mohit20111"
  const AdminPassword: string := "Mohit@123"
  const LoginErrorMessage: string := "गलत यूजरनेम या पासवर्ड।"

  class App {
    var questions: seq<Question>
    var bookmarks: seq<Question>
    var loading: bool
    var searchQuery: string
    var selectedEra: string
    var selectedCategoryId: string
    var selectedDifficulty: DifficultyFilter
    var selectedType: string
    var activeTab: Tab
    var isAdmin: bool
    var showLoginModal: bool
    var loginError: string
    var adminPhoto: Option<string>

    constructor ()
      ensures questions == [] && bookmarks == [] && !loading
      ensures StoredFilters() == Filters("", "", "", AnyDifficulty, "")
      ensures activeTab == BrowseTab
      ensures !isAdmin && !showLoginModal && loginError == "" && adminPhoto == None
    {
      questions, bookmarks, loading := [], [], false;
      searchQuery, selectedEra, selectedCategoryId, selectedDifficulty, selectedType := "", "", "", AnyDifficulty, "";
      activeTab := BrowseTab;
      isAdmin, showLoginModal, loginError, adminPhoto := false, false, "", None;
    }

    /** The filters a search without arguments uses. */
    function StoredFilters(): Filters
      reads this
    {
      Filters(searchQuery, selectedCategoryId, selectedEra, selectedDifficulty, selectedType)
    }

    /** The question list on screen: an order-preserving selection from the fetched list. */
    function Displayed(): (r: seq<Question>)
      reads this
      ensures SubsequenceOf(r, questions)
      ensures forall i :: 0 <= i < |r| ==> r[i] in questions && selectedDifficulty.Matches(r[i])
    {
      FilteredKeepsOrder(questions, selectedDifficulty, selectedType);
      FilteredQuestions(questions, selectedDifficulty, selectedType)
    }

    /** Whether the card of `q` shows as bookmarked: its id is among the bookmarked ids. */
    function IsBookmarked(q: Question): (b: bool)
      reads this
      ensures b <==> q.id in Ids(bookmarks)
    {
      HasId(bookmarks, q.id)
    }

    /** Start-up restore: parsed bookmarks replace the list (a missing or unparsable payload leaves
        it alone), "true" under the admin key sets the admin flag, a non-empty photo is loaded. */
    method Restore(saved: Storage)
      modifies this`bookmarks, this`isAdmin, this`adminPhoto
      ensures bookmarks == if saved.bookmarks.ParsedBookmarks? then saved.bookmarks.items else old(bookmarks)
      ensures isAdmin == (old(isAdmin) || saved.adminAuth == Some("true"))
      ensures adminPhoto == if saved.adminPhoto.Some? && saved.adminPhoto.value != "" then saved.adminPhoto else old(adminPhoto)
    {
      match saved.bookmarks {
        case ParsedBookmarks(items) => bookmarks := items;
        case NoSavedBookmarks =>
        case UnparsableBookmarks =>
      }
      if saved.adminAuth == Some("true") {
        isAdmin := true;
      }
      if saved.adminPhoto.Some? && saved.adminPhoto.value != "" {
        adminPhoto := saved.adminPhoto;
      }
    }

    /** One search: resolve the effective filters, send the request, replace the question list with
        the answer (no merge), clear the loading flag and choose the tab. */
    method Search(o: Overrides, fetch: QueryArgs -> seq<Question>)
      modifies this`questions, this`loading, this`activeTab
      ensures questions == fetch(SearchArgs(Resolve(o, StoredFilters())))
      ensures !loading
      ensures activeTab == TabAfterSearch(old(activeTab), Resolve(o, StoredFilters()))
    {
      loading := true;
      var f := Resolve(o, StoredFilters());
      var categoryName := CategoryName(f.categoryId);
      var results := fetch(QueryArgs(f.query, f.era, categoryName, f.difficulty.Name(), f.questionType));
      questions := results;
      loading := false;
      if activeTab != BookmarksTab {
        activeTab := if f.AnyActive() then SearchTab else BrowseTab;
      }
    }

    /** Select or clear a category, then search with the new category and the stored other filters. */
    method SelectCategory(id: string, fetch: QueryArgs -> seq<Question>)
      modifies this`selectedCategoryId, this`questions, this`loading, this`activeTab
      ensures selectedCategoryId == Toggle(old(selectedCategoryId), id, "")
      ensures questions == fetch(SearchArgs(StoredFilters()))
      ensures !loading && activeTab == TabAfterSearch(old(activeTab), StoredFilters())
    {
      var newId := Toggle(selectedCategoryId, id, "");
      selectedCategoryId := newId;
      Search(Overrides(Some(newId), Some(selectedEra), Some(selectedDifficulty), Some(selectedType), None), fetch);
    }

    /** Select or clear an era, then search with the new era and the stored other filters. */
    method SelectEra(era: string, fetch: QueryArgs -> seq<Question>)
      modifies this`selectedEra, this`questions, this`loading, this`activeTab
      ensures selectedEra == Toggle(old(selectedEra), era, "")
      ensures questions == fetch(SearchArgs(StoredFilters()))
      ensures !loading && activeTab == TabAfterSearch(old(activeTab), StoredFilters())
    {
      var newEra := Toggle(selectedEra, era, "");
      selectedEra := newEra;
      Search(Overrides(Some(selectedCategoryId), Some(newEra), Some(selectedDifficulty), Some(selectedType), None), fetch);
    }

    /** Select or clear a difficulty, then search with the new difficulty and the stored other filters. */
    method SelectDifficulty(level: DifficultyLevel, fetch: QueryArgs -> seq<Question>)
      modifies this`selectedDifficulty, this`questions, this`loading, this`activeTab
      ensures selectedDifficulty == Toggle(old(selectedDifficulty), OnlyDifficulty(level), AnyDifficulty)
      ensures questions == fetch(SearchArgs(StoredFilters()))
      ensures !loading && activeTab == TabAfterSearch(old(activeTab), StoredFilters())
    {
      var newDifficulty := Toggle(selectedDifficulty, OnlyDifficulty(level), AnyDifficulty);
      selectedDifficulty := newDifficulty;
      Search(Overrides(Some(selectedCategoryId), Some(selectedEra), Some(newDifficulty), Some(selectedType), None), fetch);
    }

    /** Select or clear a question type, then search with the new type and the stored other filters. */
    method SelectType(questionType: string, fetch: QueryArgs -> seq<Question>)
      modifies this`selectedType, this`questions, this`loading, this`activeTab
      ensures selectedType == Toggle(old(selectedType), questionType, "")
      ensures questions == fetch(SearchArgs(StoredFilters()))
      ensures !loading && activeTab == TabAfterSearch(old(activeTab), StoredFilters())
    {
      var newType := Toggle(selectedType, questionType, "");
      selectedType := newType;
      Search(Overrides(Some(selectedCategoryId), Some(selectedEra), Some(selectedDifficulty), Some(newType), None), fetch);
    }

    /** The search box edits the stored query. */
    method SetSearchQuery(text: string)
      modifies this`searchQuery
      ensures searchQuery == text
    {
      searchQuery := text;
    }

    /** The bookmarks navigation button. */
    method OpenBookmarks()
      modifies this`activeTab
      ensures activeTab == BookmarksTab
    {
      activeTab := BookmarksTab;
    }

    method ToggleBookmark(q: Question)
      modifies this`bookmarks
      ensures bookmarks == Toggled(old(bookmarks), q)
      ensures IsBookmarked(q) <==> !old(IsBookmarked(q))
      ensures UniqueIds(old(bookmarks)) ==> UniqueIds(bookmarks)
    {
      if UniqueIds(bookmarks) {
        ToggleKeepsUnique(bookmarks, q);
      }
      bookmarks := Toggled(bookmarks, q);
    }

    /** The bookmark button of a card rendered for this application: the card hands its own
        question to the application's toggle, so that question's bookmarked state flips. */
    method ClickCardBookmark(card: QuestionCardModel.QuestionCard)
      modifies this`bookmarks
      ensures bookmarks == Toggled(old(bookmarks), card.question)
      ensures IsBookmarked(card.question) <==> !old(IsBookmarked(card.question))
      ensures UniqueIds(old(bookmarks)) ==> UniqueIds(bookmarks)
    {
      ToggleBookmark(card.question);
    }

    /** Local credential check: the exact pair logs in and closes the dialog; anything else shows a
        fixed error and changes nothing else. */
    method Login(username: string, password: string)
      modifies this`isAdmin, this`showLoginModal, this`loginError
      ensures username == AdminUsername && password == AdminPassword ==>
                isAdmin && !showLoginModal && loginError == ""
      ensures !(username == AdminUsername && password == AdminPassword) ==>
                isAdmin == old(isAdmin) && showLoginModal == old(showLoginModal)
                && loginError == LoginErrorMessage && loginError != ""
    {
      if username == AdminUsername && password == AdminPassword {
        isAdmin := true;
        showLoginModal := false;
        loginError := "";
      } else {
        loginError := LoginErrorMessage;
      }
    }

    method Logout()
      modifies this`isAdmin
      ensures !isAdmin
    {
      isAdmin := false;
    }
  }

  /** The initial search sends no query, era, category, difficulty or question type. */
  lemma InitialSearchArgs()
    ensures SearchArgs(Filters("", "", "", AnyDifficulty, "")) == QueryArgs("", "", "", "", "")
  {
  }

  /** Mounting the application: restore from storage, then run the initial search with no filters.
      An absent or unparsable bookmark payload leaves the bookmark list empty. */
  method Mount(saved: Storage, fetch: QueryArgs -> seq<Question>) returns (app: App)
    ensures fresh(app)
    ensures app.bookmarks == if saved.bookmarks.ParsedBookmarks? then saved.bookmarks.items else []
    ensures app.isAdmin <==> saved.adminAuth == Some("true")
    ensures app.StoredFilters() == Filters("", "", "", AnyDifficulty, "")
    ensures app.questions == fetch(SearchArgs(app.StoredFilters()))
    ensures !app.loading && app.activeTab == BrowseTab
  {
    app := new App();
    app.Restore(saved);
    InitialSearchArgs();
    app.Search(NoOverrides, fetch);
  }
}
