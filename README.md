# History MCQ quiz app — verified Dafny model of its state logic

The application is a client-side quiz for Indian competitive-exam history questions. A search
turns the current filters (query text, exam category, era, difficulty, question type) into a
prompt for an external text-generation service. It shows the returned multiple-choice questions
through a difficulty and subtype filter, and it keeps a bookmark list and a local admin flag.
This project models the three parts of it that hold sequential logic:

- `app.dfy` (module `AppState`) is the application state controller. Class `App` has one field per
  state cell: `questions`, `bookmarks`, `loading`, the four filters, the query, `activeTab`,
  `isAdmin`, `showLoginModal`, `loginError` and `adminPhoto`. Its methods are the event handlers:
  search, select-or-clear of each filter, bookmark toggle, login, logout and the start-up restore.
  The rules they follow are pure functions with lemmas beside them. These are the bookmark updater
  `Toggled`, the derived view `FilteredQuestions`, the tab rule `TabAfterSearch` and the filter
  resolution `Resolve`.
- `question_card.dfy` (module `QuestionCardModel`) is the question card. The class
  `QuestionCard` holds the one-shot answer state. Correctness, per-option highlighting and the
  difficulty badge are pure functions.
- `gemini_service.dfy` (module `GeminiService`) is the query service. It covers the UPSC/RPSC
  detectors, how the prompt lines are filled, and the rule that every failure becomes `[]`.
  The generation call is a parameter `generate: string -> GenerationOutcome`: it receives the
  prompt text and reports whether it threw, what text it returned and what parsing gave.
  `FetchQuestionsByQuery(args, generate)` is the service function over its five arguments.

Supporting modules:

- `types.dfy` (`Types`) holds the records and enumerations of `types.ts` and the category table of
  `constants.tsx`.
- `text.dfy` (`Text`) holds ASCII lower-casing and substring search, which model `toLowerCase`
  and `includes`.
- `seqs.dfy` (`Seqs`) holds an order-preserving `Filter`, which models `Array.prototype.filter`.
- `subtype.dfy` (`Subtype`) holds the Hindi-keyword subtype classifier. The type filter and the
  card markers both use it.

The application imports the service function and calls it with five arguments. The methods of
`App` therefore take it as a parameter `fetch: QueryArgs -> seq<Question>`, and their contracts
say which arguments a search passes and that its answer becomes the question list.
`SearchPromptCarriesFilters` then states what the service does with those arguments.

The select-or-clear filters and the query are strings, with `""` standing for "no filter", as
in the source. The difficulty filter is `AnyDifficulty` or `OnlyDifficulty(level)`. A search's
optional arguments are `Option` values that fall back to the stored state.

Observation. `App.tsx:57` hands the service the category's display name, not its id. Of the
category tests in `services/geminiService.ts:14`, `raj-ap` can therefore never match a name
from the table. The name of the RPSC category, "RPSC Assistant Professor", also lacks
"rajasthan", and "rpsc" is not among the category tests. So selecting the RPSC category with an
unrelated query does not produce an RPSC prompt (lemma `RpscCategoryNotDetected`). The UPSC
category is detected through its name (`UpscCategoryDetected`). The model keeps this behaviour
as written. In the running application the effect is limited: the UPSC and RPSC categories are
left out of the category tabs (App.tsx:339) and are selected only by the two shortcut handlers
(App.tsx:129-139). Each of those also fires a second search whose query names UPSC or RPSC. The
non-RPSC prompt therefore belongs to the first of two overlapping searches, and its answer
reaches the screen only if it completes last.

## Model

| member | source | states |
|---|---|---|
| Types.FirstNameFinds | App.tsx:57 | The first table entry with the id gives the name; no entry with that id gives "" |
| Types.CategoryNameLookup | constants.tsx:5-14 | Every table id resolves to its own entry's name; the result is non-empty exactly for ids in the table |
| Text.Lower | services/geminiService.ts:13-14 | Lower-casing keeps the length, maps each character by ASCII lower-casing and leaves no ASCII capital |
| Text.Contains | App.tsx:113 | `includes` holds exactly when the keyword occurs at some index of the text |
| Text.LowerContainsIgnoresCase | services/geminiService.ts:13-14 | Searching the lower-cased text finds a keyword exactly when it occurs in the text in any ASCII case |
| Seqs.Filter | App.tsx:109 | The filtered list holds only passing elements of the input and every passing element of it |
| Seqs.FilterIsSubsequence | App.tsx:71 | Filtering keeps the input's order |
| Subtype.MapTestIgnoresCase | App.tsx:117 | The map test classifies a text and its lower-cased form alike |
| Subtype.MapInAnyCaseIsMapBased | App.tsx:117 | "map" in any ASCII case, at any position of the text, makes it a map question |
| Subtype.IsAssertion | App.tsx:113 | A text is an assertion/reason question when it contains both the assertion and the reason keyword |
| Subtype.IsMatching | App.tsx:115 | A text is a matching question when it contains the list or the matching keyword |
| Subtype.IsMapBased | App.tsx:117 | A text is a map question exactly when it contains "map" in any ASCII case, or the Hindi map or place keyword |
| Subtype.IsGeneral | App.tsx:118-123 | A text is a general question when none of the three keyword tests holds |
| Subtype.TypeMatches | App.tsx:111-124 | The General filter keeps exactly the texts no specific filter keeps; a value outside the four known types keeps everything |
| GeminiService.IsUPSC | services/geminiService.ts:13 | UPSC is detected exactly when "upsc" occurs in the query or the category name in any ASCII case |
| GeminiService.IsRPSC | services/geminiService.ts:14 | RPSC is detected exactly when "rpsc" or "rajasthan" occurs in the query, or "raj-ap" or "rajasthan" in the category name, in any ASCII case |
| GeminiService.BuildPrompt | services/geminiService.ts:16-32 | RPSC takes precedence over UPSC in the archive and focus lines; the focus falls back to the category, then to "Academic History"; an empty query, era or type becomes its fixed default; an empty difficulty becomes "Hard (Assistant Prof Level)" under RPSC and "Mixed" otherwise; given values are used verbatim; no line is ever blank |
| GeminiService.PromptTextEmbedsLines | services/geminiService.ts:16-32 | Every filled line appears verbatim in the prompt text |
| GeminiService.RequestValuesReachPrompt | services/geminiService.ts:28-32 | A non-empty query, era, difficulty or type reaches the prompt text verbatim |
| GeminiService.DetectionIgnoresCase | services/geminiService.ts:13-14 | UPSC and RPSC detection give the same answer on lower-cased inputs |
| GeminiService.UpscCategoryDetected | services/geminiService.ts:13 | The UPSC category name marks any request as UPSC |
| GeminiService.RpscCategoryNotDetected | services/geminiService.ts:14 | The RPSC category name alone does not mark a request as RPSC ("rpsc" in the category does not count) |
| GeminiService.FetchResult | services/geminiService.ts:77-83 | The result is [] unless the call answered with non-empty text that parsed, in which case it is exactly the parsed list; no failure escapes |
| GeminiService.FetchQuestionsByQuery | services/geminiService.ts:8-84 | One call answers [] unless the generation call answered with non-empty text that parsed, and then exactly the parsed list for its own prompt |
| GeminiService.ServiceAnswer | services/geminiService.ts:28-83 | One call answers [] or exactly the parsed reply to its prompt, and that prompt carries every given query, era, difficulty and question type verbatim |
| QuestionCardModel.OptionHighlight | components/QuestionCard.tsx:75-83 | Before a choice every option is neutral; after one an option is green exactly when it is the key and red exactly when it is the wrong choice |
| QuestionCardModel.AnsweredCardColours | components/QuestionCard.tsx:75-83 | After a choice exactly one option (the key) is green, at most the chosen one is red, the rest are neutral |
| QuestionCardModel.Click | components/QuestionCard.tsx:16-18 | A click on a card without a choice records the clicked key; with a choice it changes nothing |
| QuestionCardModel.ClickAll | components/QuestionCard.tsx:16-18 | After a series of clicks a choice exists exactly when one existed or some option was clicked |
| QuestionCardModel.FirstAnswerIsFinal | components/QuestionCard.tsx:16-18 | Over any series of clicks the choice is the first key clicked, and an existing choice never changes |
| QuestionCardModel.DifficultyBadge | components/QuestionCard.tsx:38-42 | Easy is green, Medium yellow, every other level red |
| QuestionCardModel.QuestionCard.constructor | components/QuestionCard.tsx:13-14 | A new card has no choice and hides the explanation |
| QuestionCardModel.QuestionCard.HandleOptionClick | components/QuestionCard.tsx:16-20 | The first click records the key and shows the explanation; later clicks change nothing; the explanation is shown exactly when a choice exists |
| QuestionCardModel.QuestionCard.IsCorrect | components/QuestionCard.tsx:22 | Correct only after a choice, and exactly when the chosen option is drawn as a correct choice |
| QuestionCardModel.QuestionCard.Markers | components/QuestionCard.tsx:25-26 | The card's markers are the type filter's Assertion/Reason and Matching tests |
| QuestionCardModel.QuestionCard.OptionsDisabled | components/QuestionCard.tsx:74 | The options are disabled exactly while the explanation is shown, which is exactly when the chosen option is highlighted |
| AppState.DifficultyFilter.Name | App.tsx:16 | The difficulty sent to the service is "" exactly when no level is chosen |
| AppState.Resolve | App.tsx:51-55 | On each axis a given argument wins and an absent one falls back to the stored value |
| AppState.ResolveFallsBack | App.tsx:51-55 | Without arguments a search uses the stored filters; arguments on every filter axis replace those and keep the stored query |
| AppState.SearchArgs | App.tsx:57-59 | The service receives the query, era and type verbatim, the category's display name, and "" for the difficulty exactly when no level is chosen (otherwise the level's name) |
| AppState.SearchPromptCarriesFilters | App.tsx:57-59 | Served by the generation service, a search answers [] or exactly the parsed reply to a prompt carrying its query, era, chosen difficulty and question type |
| AppState.InitialSearchArgs | App.tsx:102-104 | The initial search passes no query, era, category, difficulty or question type |
| AppState.TabAfterSearch | App.tsx:62-64 | The bookmarks tab is kept; otherwise the search tab exactly when some query or filter is set, else the browse tab |
| AppState.Toggle | App.tsx:79 | Choosing the current value clears the filter; choosing another value stores it |
| AppState.Toggled | App.tsx:67-76 | After a toggle the id is bookmarked exactly when it was not; an absent question is appended |
| AppState.HasId | App.tsx:69 | Some entry has the id exactly when the id is in the list's id set |
| AppState.RemoveId | App.tsx:71 | No entry with the id remains, and an element is kept exactly when it was in the list with another id |
| AppState.RemoveIdKeepsOthers | App.tsx:71 | Removing an id keeps all other entries in order and with their multiplicity, and removes just that id from the id set |
| AppState.RemoveIdKeepsUnique | App.tsx:71 | Removing an id keeps bookmark ids unique |
| AppState.ToggleAbsentAppends | App.tsx:72-73 | Toggling an absent question appends it at the end and leaves every existing entry in place |
| AppState.TogglePresentRemoves | App.tsx:69-71 | Toggling a present question removes every entry with its id and keeps the rest in their order |
| AppState.ToggleIds | App.tsx:67-75 | A toggle is a symmetric difference with {id} on the set of bookmarked ids |
| AppState.ToggleKeepsUnique | App.tsx:67-75 | Unique bookmark ids stay unique after a toggle |
| AppState.ToggleTwice | App.tsx:67-75 | Toggling twice restores the set of ids, and restores the list itself when the question was absent |
| AppState.FilteredQuestions | App.tsx:106-127 | A question is displayed exactly when it is fetched and passes the difficulty and type tests; with a difficulty every displayed question has it; under "General" none meets any subtype test |
| AppState.FilteredKeepsOrder | App.tsx:106-127 | The displayed list is an order-preserving subsequence of the fetched list |
| AppState.FilteredMultiplicity | App.tsx:106-127 | Each displayed question occurs as often as it was fetched, and a question failing a test not at all |
| AppState.UnfilteredViewIsEverything | App.tsx:107-111 | With no difficulty and an empty or unrecognised type the view is the fetched list |
| AppState.MarkersAgreeWithFilter | App.tsx:112-115 | The card's assertion and matching markers hold exactly when the matching type filter keeps the question |
| AppState.App.constructor | App.tsx:10-26 | Initial state: no questions or bookmarks, not loading, all filters empty, browse tab, not admin, no error, no photo |
| AppState.App.Displayed | App.tsx:106-127 | The view is an order-preserving selection of fetched questions that match the stored difficulty |
| AppState.App.IsBookmarked | App.tsx:450 | A card shows as bookmarked exactly when its id is among the bookmark ids |
| AppState.App.Restore | App.tsx:29-41 | Parsed bookmarks replace the list, a missing or unparsable payload leaves it; "true" sets the admin flag; a non-empty photo is loaded |
| AppState.App.Search | App.tsx:47-65 | The question list becomes exactly the service's answer for the effective filters, with the category id resolved to its display name; loading ends false; the tab follows the tab rule; nothing else changes |
| AppState.App.SelectCategory | App.tsx:78-82 | The category is toggled, then the list is the answer for the new category and the stored other filters |
| AppState.App.SelectEra | App.tsx:84-88 | The era is toggled, then the list is the answer for the new era and the stored other filters |
| AppState.App.SelectDifficulty | App.tsx:90-94 | The difficulty is toggled, then the list is the answer for the new difficulty and the stored other filters |
| AppState.App.SelectType | App.tsx:96-100 | The type is toggled, then the list is the answer for the new type and the stored other filters |
| AppState.App.SetSearchQuery | App.tsx:298 | The search box stores the typed query |
| AppState.App.OpenBookmarks | App.tsx:196 | The bookmarks button switches to the bookmarks tab |
| AppState.App.ToggleBookmark | App.tsx:67-76 | The list becomes the toggled list, the question's bookmarked state flips, and unique ids stay unique |
| AppState.App.ClickCardBookmark | components/QuestionCard.tsx:50 | A card's bookmark button, wired to the toggle at App.tsx:450, toggles that card's own question: the list becomes the toggled list, its bookmarked state flips, unique ids stay unique |
| AppState.App.Login | App.tsx:142-153 | Exactly "mohit20111"/"Mohit@123" sets the admin flag, closes the dialog and clears the error; anything else keeps flag and dialog and sets the fixed non-empty error |
| AppState.App.Logout | App.tsx:155-158 | Logout clears the admin flag |
| AppState.Mount | App.tsx:102-104 | Start-up restores from storage, then searches with empty filters: bookmarks are the parsed payload or empty, the admin flag is set exactly by a stored "true", the list is the service's answer for empty filters, the browse tab shows and loading is false |

## Left out

- Rendering, styling, icons, the mobile menu, hero and footer markup, and the statistics constant are presentation only.
- The generation client, the model name and the response schema are a foreign library call. They are the `generate` parameter, and `JSON.parse` is the `parsed` field of its outcome.
- The methods of `App` are stated for any service function `fetch`. That the application's `fetch` is `FetchQuestionsByQuery` with the real generation call is stated by the lemmas `SearchPromptCarriesFilters` and `ServiceAnswer`, not inside each method contract.
- Local-storage writes are not modelled: the bookmark save on every change (App.tsx:43-45), the admin-flag write and removal (App.tsx:147, 157) and the photo write. Reads are the `Storage` value given to `Restore`.
- Photo upload through `FileReader` (App.tsx:160-175) is browser file I/O.
- Asynchrony is not modelled. `Search` is one sequential step, so `loading` is observed only after it. The two overlapping searches of the UPSC/RPSC shortcut buttons (App.tsx:129-139) and the header and "clear filters" resets, which call the search with stale captured values (App.tsx:182, 457), are not modelled. Neither is the overwriting of newer results by stale responses.
- `toLowerCase` is modelled for ASCII letters only. Devanagari keywords are matched exactly.
- The service's fixed instruction paragraphs are abbreviated to one header line in `PromptText`. Only the six input-dependent lines are modelled in full.
- Question fields are typed as in `types.ts`. A service answer whose difficulty, topic or option key lies outside those enumerations is not modelled. The source does not check the parsed JSON.
- The service's optional parameters are always passed by the application. An absent value is modelled as "", which the service treats alike.
- `selectEra` and `selectDifficulty` (App.tsx:84-94) are modelled as `SelectEra` and `SelectDifficulty`, although no control of the page calls them; the stored era and difficulty therefore stay "" in the running application.
- Other cosmetic state is not modelled: the login form fields (passed to `Login` as arguments), opening and closing the login dialog, the mobile-menu flag, and the error logging.
