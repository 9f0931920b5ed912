# Survey platform: a verified model of its client-side logic

The survey platform is a client-side web app with two kinds of account:

- companies create surveys under a paid package;
- respondents take surveys, collect favourites and see their earnings.

Everything runs in the browser, and all state sits in two stores:

- **the survey store**: surveys, companies and the signed-in company;
- **the user store**: respondents and the signed-in respondent.

This project models, in Dafny:

- the records and the fixed package catalogue;
- both stores and every operation they expose;
- the question-list builder;
- the respondent's step-by-step walk through a survey, with its buttons and answer widgets;
- the company's separate preview walk;
- the create and edit pages: their checks and the survey or update they hand to the store;
- the route guard, the navigation bar and the login form;
- the read-only aggregations:
  - the per-question tally;
  - the dashboard charts;
  - the respondent dashboard's tabs and search;
  - the survey list's totals and time estimate;
  - the profile pages' save rule and counts.

How each kind of source code is modelled:

- **State that the source updates in place** becomes a `class`, whose methods state the whole new state:
  - the stores;
  - the builder;
  - the survey-taking and preview sessions;
  - the page forms.
- **Pure computations** become functions with named results.
- **Loops in the source** become methods with loop invariants proved against a specification function. There are three:
  - the answer tally;
  - the package distribution;
  - the in-place move of a question.

Three parts of the source behaviour are made explicit:

- **JavaScript semantics the source relies on:**
  - truthiness (`IsTruthy`);
  - ECMAScript `trim`;
  - `toLowerCase` on ASCII letters;
  - object spread with `undefined`, as an `Option<Option<_>>` field of the patch types.
- **Generated identifiers and timestamps** are parameters. A precondition says each new identifier is fresh.
- **Two traps:**
  - The question bound is checked only when a question is added, so a stored survey can exceed its own `maxQuestions` (`CreateSurvey.SubmitIgnoresBound`).
  - The respondent page and the preview use different rules for leaving a question (`SurveyPreview.WhitespaceTextDiffers`, `SurveyPreview.EmptyChoiceDiffers`).

Helper modules:

- `Wrappers`: Option and Result.
- `Strings`: trim, lower-casing, substring search, join, decimal digits.
- `Seqs`: filter, find, count, dedup, subsequence, sums.
- `SurveyQueries`: the filters and totals that several pages repeat.

## Model

| member | source | states |
|---|---|---|
| SurveyTypes.PackageTypeId | src/types/survey.ts:29 | a survey's tier is stored as basic, standard or premium, never "none" and never empty |
| SurveyTypes.PackageTypeIdInjective | src/types/survey.ts:29 | distinct tiers have distinct identifiers, so a tier can be looked up by its id |
| SurveyTypes.IsTruthy | src/pages/TakeSurveyPage.tsx:45 | a stored answer is truthy exactly when present and not the empty string; every list counts |
| Packages.FindPackage | src/data/packages.ts:4-46 | the lookup returns a catalogue entry with the requested id, and returns nothing exactly when no entry has that id |
| Packages.PackageOrFirst | src/pages/CreateSurveyPage.tsx:37 | the lookup with fallback always yields a catalogue entry: the one with the id if any, otherwise the first |
| Packages.SelectedPackage | src/pages/EditSurveyPage.tsx:65 | for every tier the lookup finds that tier's own entry, so the fallback never fires |
| Packages.MaxQuestionsFor | src/data/packages.ts:8 | the question bound is 10 for basic, 30 for standard and 100 for premium |
| Packages.PackageIdsAreTheTiers | src/data/packages.ts:4-46 | the catalogue has three entries and their ids are distinct, so lookup by id is a function |
| Packages.TierIndex | src/data/packages.ts:4-46 | each tier has a position in the catalogue, and the entry there carries the tier's id |
| Packages.SelectedPackageAt | src/data/packages.ts:4-46 | looking a tier up finds exactly the entry at the tier's position |
| Packages.CatalogueIsTheTiers | src/data/packages.ts:4-46 | the catalogue is exactly the basic, standard and premium packages, in that order |
| Packages.PriceIncreasesWithBound | src/data/packages.ts:9 | between any two packages, a larger question bound means a strictly higher price (29 < 79 < 199) |
| Packages.OnlyStandardIsPopular | src/data/packages.ts:29 | a package is flagged popular exactly when it is the standard one |
| Packages.NoPackageIsEmpty | src/data/packages.ts:49-55 | the no-package record has id "none", no questions and no price, and is not in the catalogue |
| Strings.TrimStart | src/pages/TakeSurveyPage.tsx:72-75 | the result is the suffix of the input left after dropping only whitespace, and it starts with a non-whitespace character if it is non-empty |
| Strings.TrimEnd | src/pages/TakeSurveyPage.tsx:72-75 | the result is the prefix of the input left after dropping only trailing whitespace, and it ends with a non-whitespace character if it is non-empty |
| Strings.Trim | src/pages/CompanyProfilePage.tsx:38-42 | trimming yields nothing exactly when the input is all whitespace, and otherwise a string with no whitespace at either end |
| Strings.TrimBothEnds | src/pages/CompanyProfilePage.tsx:38-42 | trimming first the start and then the end is empty exactly for an all-whitespace input, and otherwise starts with a non-whitespace character |
| Strings.TrimStartIdempotent | src/pages/CompanyProfilePage.tsx:38-42 | trimming the start of a string that starts with a non-whitespace character changes nothing |
| Strings.TrimEndIdempotent | src/pages/CompanyProfilePage.tsx:38-42 | trimming the end of a string that ends with a non-whitespace character changes nothing |
| Strings.TrimIdempotent | src/pages/CompanyProfilePage.tsx:38-42 | trimming twice is trimming once |
| Strings.Lower | src/contexts/SurveyContext.tsx:367 | lower-casing keeps the length |
| Strings.LowerIdempotent | src/contexts/SurveyContext.tsx:367 | lower-casing twice is lower-casing once |
| Strings.EqualsIgnoreCaseIsEquivalence | src/contexts/SurveyContext.tsx:367 | case-insensitive email equality is reflexive, symmetric and transitive |
| Strings.Contains | src/pages/UserDashboardPage.tsx:49-55 | `includes` holds exactly when the term occurs at some position of the text |
| Strings.NatToString | src/components/SurveyBuilder.tsx:80 | a count prints as a non-empty string of decimal digits with no leading zero, and those digits denote the count (`DecimalValue`) |
| Seqs.FilterMembership | src/pages/SurveysListPage.tsx:13 | an element survives a filter exactly when it was there and satisfies the predicate |
| Seqs.FilterIsSubsequence | src/pages/SurveysListPage.tsx:13 | a filter keeps the order of what it keeps |
| Seqs.Find | src/contexts/SurveyContext.tsx:438-440 | `find` returns the first element satisfying the predicate, and returns nothing exactly when none does |
| Seqs.FirstIndex | src/components/DashboardStats.tsx:26-34 | the index returned is the first one whose element satisfies the predicate, and none is returned exactly when no element does |
| Seqs.Dedup | src/components/DashboardStats.tsx:26-34 | the distinct keys have no duplicates and hold exactly the input's elements |
| Seqs.DedupFirstAppearance | src/components/DashboardStats.tsx:26-34 | the distinct keys are in first-appearance order: a key listed earlier first occurs earlier in the input, by induction |
| Seqs.DedupCountsSum | src/components/analytics/QuestionAnalytics.tsx:30-35 | the occurrence counts of the distinct keys add up to the number of keys |
| SurveyQueries.ActiveSurveysExact | src/pages/UserDashboardPage.tsx:28 | the active list holds exactly the active surveys, in store order |
| SurveyQueries.CompanySurveysExact | src/components/DashboardStats.tsx:16 | a company's list holds exactly the surveys with its id, in store order |
| SurveyQueries.FindSurvey | src/contexts/SurveyContext.tsx:438-440 | the survey found carries the requested id, and nothing is found exactly when no survey has that id |
| SurveyQueries.TotalResponses | src/contexts/SurveyContext.tsx:474 | the total number of responses is never negative |
| SurveyQueries.ActiveCompanySurveysBounded | src/pages/CompanyProfilePage.tsx:30 | a company's active surveys are an ordered part of its surveys, which are an ordered part of all surveys |
| SurveyContext.FindCompanyByEmail | src/contexts/SurveyContext.tsx:367 | the company found is the first whose email equals the given one ignoring case, and nothing is found exactly when no email matches |
| SurveyContext.EmailTaken | src/contexts/SurveyContext.tsx:383 | the email is taken exactly when some company has it, ignoring case |
| SurveyContext.NewSurvey | src/contexts/SurveyContext.tsx:410-415 | the new survey carries every field of the draft (`DraftOf` gives it back), under the fresh id and creation time, with no responses |
| SurveyContext.AttachSurvey | src/contexts/SurveyContext.tsx:419-427 | only the survey lists of companies with the given id grow, by that one survey id at the end; every other field and every company id stays |
| SurveyContext.MergeLaws | src/contexts/SurveyContext.tsx:431-436 | merging an empty update changes nothing, and merging the same update twice is merging it once |
| SurveyContext.UpdatedSurveys | src/contexts/SurveyContext.tsx:431-436 | length and order are kept, and only the surveys with the id receive the update |
| SurveyContext.UpdatedSurveysFacts | src/contexts/SurveyContext.tsx:431-436 | updating an unknown id is a silent no-op, and an update that carries no id keeps every identifier |
| SurveyContext.AppendResponse | src/contexts/SurveyContext.tsx:456-469 | only the responses of the survey that is answered grow, by exactly that response at the end, and identifiers are kept |
| SurveyContext.AppendResponseUnknown | src/contexts/SurveyContext.tsx:456-469 | a response to a survey that does not exist changes nothing |
| SurveyContext.Stats | src/contexts/SurveyContext.tsx:471-480 | a company's survey count is at most the number of surveys, and its response total is never negative |
| SurveyContext.StatsCons | src/contexts/SurveyContext.tsx:471-480 | the statistics add up survey by survey |
| SurveyContext.StatsEmpty | src/contexts/SurveyContext.tsx:471-480 | with no surveys every total is zero |
| SurveyContext.StatsExample | src/contexts/SurveyContext.tsx:471-480 | two surveys with 2 and 0 responses paying 5 and 3 give 2 surveys, 2 responses and 10 paid |
| SurveyContext.StatsAfterResponse | src/contexts/SurveyContext.tsx:456-480 | after a response, with unique survey ids, the owner of the answered survey gains one response and that survey's reward, and every other company's figures are unchanged |
| SurveyContext.StatsAfterAddSurvey | src/contexts/SurveyContext.tsx:408-429 | a new survey adds one to its owner's survey count and nothing to any response or reward total |
| SurveyContext.FindAfterAppend | src/contexts/SurveyContext.tsx:408-440 | a newly added survey is found under its id, and every other lookup gives what it gave before |
| SurveyContext.AttachKeepsLists | src/contexts/SurveyContext.tsx:408-429 | adding a survey keeps survey ids unique and keeps every id that a company lists resolvable |
| SurveyContext.SurveyStore.constructor | src/contexts/SurveyContext.tsx:295-297 | the store starts empty, with nobody signed in, and satisfies its invariant |
| SurveyContext.SurveyStore.LoginCompany | src/contexts/SurveyContext.tsx:361-377 | without looking at the password, the first company whose email matches ignoring case is returned and signed in; without a match nothing changes |
| SurveyContext.SurveyStore.RegisterCompany | src/contexts/SurveyContext.tsx:379-406 | a taken email fails and changes nothing; otherwise exactly one company is appended and signed in, with no surveys and the given subscription; the invariant is kept |
| SurveyContext.SurveyStore.AddSurvey | src/contexts/SurveyContext.tsx:408-429 | one survey is appended, with the fresh id and no responses; that id is added only to the owning company's list; the signed-in record is left alone; the invariant is kept |
| SurveyContext.SurveyStore.UpdateSurvey | src/contexts/SurveyContext.tsx:431-436 | the update is merged into the surveys with the id only; companies are untouched; the invariant is kept when the update carries no id |
| SurveyContext.SurveyStore.GetSurvey | src/contexts/SurveyContext.tsx:438-440 | reads the store without changing it; the survey returned carries the id, and nothing is returned exactly when no stored survey has it |
| SurveyContext.SurveyStore.AddCompany | src/contexts/SurveyContext.tsx:442-454 | exactly one company is appended, with the fresh id and no surveys, without a duplicate check and without signing it in |
| SurveyContext.SurveyStore.AddResponse | src/contexts/SurveyContext.tsx:456-469 | the response, with its id and time, is appended to the matching survey; nothing else changes; the invariant is kept |
| SurveyContext.SurveyStore.SetCurrentCompany | src/contexts/SurveyContext.tsx:491 | only the signed-in company changes |
| SurveyContext.SurveyStore.GetCompanyStats | src/contexts/SurveyContext.tsx:471-480 | the store's statistics for a company are `Stats` of its surveys |
| UserContext.FindUserByEmail | src/contexts/UserContext.tsx:98 | the user found is the first whose email matches ignoring case, and nothing is found exactly when no email matches |
| UserContext.ToggledFavorites | src/contexts/UserContext.tsx:133-136 | the toggled survey is in the new list exactly when it was not in the old one, and every other survey keeps its membership |
| UserContext.ToggleKeepsNoDup | src/contexts/UserContext.tsx:134-136 | toggling never introduces a duplicate favourite |
| UserContext.ToggleTwiceSameMembers | src/contexts/UserContext.tsx:134-136 | toggling the same survey twice restores the set of favourites |
| UserContext.ToggleTwiceRestores | src/contexts/UserContext.tsx:134-136 | when the survey was absent, toggling twice restores the exact list |
| UserContext.ToggleTwiceReorders | src/contexts/UserContext.tsx:134-136 | when the survey was present and not last, toggling twice moves it to the end, e.g. ["a","b"] becomes ["b","a"] |
| UserContext.ReplaceUser | src/contexts/UserContext.tsx:138-148 | the users list keeps its length, and only entries with the id are replaced |
| UserContext.ReplaceUserKeepsIds | src/contexts/UserContext.tsx:138-148 | replacing a record under its own id keeps every user id |
| UserContext.UserStore.constructor | src/contexts/UserContext.tsx:56-57 | the store starts empty, with nobody signed in, and satisfies its invariant |
| UserContext.UserStore.LoginUser | src/contexts/UserContext.tsx:96-105 | without looking at the password, the first user whose email matches ignoring case is returned and signed in; without a match nothing changes |
| UserContext.UserStore.RegisterUser | src/contexts/UserContext.tsx:107-128 | a taken email fails and changes nothing; otherwise exactly one user is appended and signed in, with empty favourite and completed lists; user ids stay unique |
| UserContext.UserStore.IsFavorite | src/contexts/UserContext.tsx:151-153 | true exactly when a user is signed in and the survey is on that user's favourites |
| UserContext.UserStore.ToggleFavorite | src/contexts/UserContext.tsx:130-149 | with nobody signed in nothing changes; otherwise the signed-in record and the stored entry with its id become the same toggled record; `IsFavorite` flips for that survey and only that survey; no duplicate appears; user ids stay unique |
| UserContext.UserStore.SetCurrentUser | src/contexts/UserContext.tsx:130-153 | only the signed-in user changes |
| SurveyBuilder.Added | src/components/SurveyBuilder.tsx:16-27 | at the bound nothing changes; below it exactly one question is appended: multiple choice, required, empty text, two default options |
| SurveyBuilder.NewQuestion | src/components/SurveyBuilder.tsx:18-24 | a new question is required, untitled multiple choice, with the options addOption would label 1 and 2 |
| SurveyBuilder.AddedWithinBound | src/components/SurveyBuilder.tsx:17 | a list within the bound stays within it, grows by at most one, and keeps its existing questions unchanged |
| SurveyBuilder.Updated | src/components/SurveyBuilder.tsx:29-33 | length and order are kept, and only questions with the id receive the update |
| SurveyBuilder.Deleted | src/components/SurveyBuilder.tsx:35-37 | no question with the id remains, and the list never grows |
| SurveyBuilder.DeletedExact | src/components/SurveyBuilder.tsx:35-37 | exactly the questions with the id are removed, and the rest keep their order |
| SurveyBuilder.MovedAt | src/components/SurveyBuilder.tsx:39-44 | the moved question lands at the target, the questions between the two positions shift by one towards the source, and all others stay in place |
| SurveyBuilder.Moved | src/components/SurveyBuilder.tsx:39-44 | the spliced list keeps the length and the same questions (the same multiset), with the moved one at the target |
| SurveyBuilder.MoveByOneSwaps | src/components/SurveyBuilder.tsx:46-56 | a move by one position swaps the two neighbours and leaves everything else in place |
| SurveyBuilder.MoveInPlace | src/components/SurveyBuilder.tsx:39-44 | the in-place shifting on an array yields exactly the spliced list |
| SurveyBuilder.FindQuestion | src/components/SurveyBuilder.tsx:79 | the question found carries the id, and nothing is found exactly when no question has it |
| SurveyBuilder.WithAddedOption | src/components/SurveyBuilder.tsx:76-83 | nothing changes unless the first question with the id has options; then every question with the id gets those options plus the next label, and every other question is untouched |
| SurveyBuilder.AddedOptionLabel | src/components/SurveyBuilder.tsx:76-83 | the options keep their order, and the one appended reads "Option " followed by digits that denote the new number of options |
| SurveyBuilder.RemoveAt | src/components/SurveyBuilder.tsx:97 | removing a valid index drops exactly the option at that index: the options before it stay in place and those after it move down by one; an out-of-range index changes nothing |
| SurveyBuilder.WithRemovedOption | src/components/SurveyBuilder.tsx:94-100 | nothing changes unless the first question with the id has more than two options; then every question with the id gets those options without the index, and every other question is untouched |
| SurveyBuilder.RemovedOptionKeepsTwo | src/components/SurveyBuilder.tsx:94-100 | a removal never leaves a question it touches with fewer than two options, and questions with other ids are untouched |
| SurveyBuilder.TypeChange | src/components/SurveyBuilder.tsx:176-181 | applied to the question, the new type is set; text and yes/no clear the options; choice and rating keep existing options or default to two; no other field changes |
| SurveyBuilder.Builder.constructor | src/components/SurveyBuilder.tsx:14 | the builder starts with the given list and bound, with nothing dragged |
| SurveyBuilder.Builder.SetMaxQuestions | src/pages/CreateSurveyPage.tsx:262 | a new bound is taken without any check of the current list |
| SurveyBuilder.Builder.CanAdd | src/components/SurveyBuilder.tsx:241 | the add button shows exactly when adding would change the list |
| SurveyBuilder.Builder.AddQuestion | src/components/SurveyBuilder.tsx:16-27 | the list becomes the bounded addition, and a list within the bound stays within it |
| SurveyBuilder.Builder.UpdateQuestion | src/components/SurveyBuilder.tsx:29-33 | the list becomes the update by id, and the bound is kept |
| SurveyBuilder.Builder.DeleteQuestion | src/components/SurveyBuilder.tsx:35-37 | the list becomes the deletion by id, and the bound is kept |
| SurveyBuilder.Builder.MoveQuestion | src/components/SurveyBuilder.tsx:39-44 | the list becomes the spliced move, computed in place on an array copy |
| SurveyBuilder.Builder.MoveQuestionUp | src/components/SurveyBuilder.tsx:46-50 | no change at the top; otherwise the question moves one place up |
| SurveyBuilder.Builder.MoveQuestionDown | src/components/SurveyBuilder.tsx:52-56 | no change at the bottom; otherwise the question moves one place down |
| SurveyBuilder.Builder.DragStart | src/components/SurveyBuilder.tsx:58-61 | the dragged index is recorded and nothing else changes |
| SurveyBuilder.Builder.Drop | src/components/SurveyBuilder.tsx:68-74 | a drop onto another index moves the dragged question there; with nothing dragged, or a drop onto itself, nothing moves; the drag always ends |
| SurveyBuilder.Builder.AddOption | src/components/SurveyBuilder.tsx:76-83 | the list becomes the one with the option added |
| SurveyBuilder.Builder.UpdateOption | src/components/SurveyBuilder.tsx:85-92 | the first matching question's options, with one slot overwritten, go to every question with the id; without options nothing changes |
| SurveyBuilder.Builder.RemoveOption | src/components/SurveyBuilder.tsx:94-100 | the list becomes the one with the option removed, subject to the two-option floor |
| SurveyBuilder.Builder.ChangeType | src/components/SurveyBuilder.tsx:176-181 | the question at the index receives the type-change update |
| TakeSurvey.EntryOf | src/pages/TakeSurveyPage.tsx:28-39 | the page says not found, inactive or no questions, checked in that order, and starts the walk exactly for an active survey with questions |
| TakeSurvey.PageEntry | src/pages/TakeSurveyPage.tsx:26-39 | a missing, empty or unknown id is not found; the walk starts exactly for an id whose survey is active and has questions |
| TakeSurvey.InactiveBeforeEmpty | src/pages/TakeSurveyPage.tsx:32-39 | an inactive survey without questions is reported as inactive |
| TakeSurvey.CanProceed | src/pages/TakeSurveyPage.tsx:45 | an optional question can always be left; a required one needs a stored answer other than the empty string, so whitespace and an empty list pass |
| TakeSurvey.NextResultOf | src/pages/TakeSurveyPage.tsx:54-86 | the forward press is blocked exactly when the question cannot be left; it advances exactly before the last question; on the last it submits exactly when name and email are non-blank |
| TakeSurvey.SubmitNeedsContact | src/pages/TakeSurveyPage.tsx:72-75 | a submission only happens on the last question, with a name and an email that are non-empty after trimming |
| TakeSurvey.TakeSurveySession.constructor | src/pages/TakeSurveyPage.tsx:18-22 | the walk starts at question 0 with no answers, not submitted, and with empty name and email |
| TakeSurvey.TakeSurveySession.AnswerChange | src/pages/TakeSurveyPage.tsx:47-52 | only that question's answer is replaced, and the index does not move |
| TakeSurvey.TakeSurveySession.SetUserName | src/pages/TakeSurveyPage.tsx:21 | only the name changes |
| TakeSurvey.TakeSurveySession.SetUserEmail | src/pages/TakeSurveyPage.tsx:22 | only the email changes |
| TakeSurvey.TakeSurveySession.Next | src/pages/TakeSurveyPage.tsx:54-86 | the outcome is the forward rule. Blocked or missing contact changes nothing. Advancing adds one to the index, which stays in range. A submission appends exactly one response (the answers, the given respondent id, no reward claimed) and marks the page submitted; the owner's statistics grow by that response |
| TakeSurvey.TakeSurveySession.Previous | src/pages/TakeSurveyPage.tsx:67-69 | one question back from a non-first question; nothing else changes |
| SurveyNavigation.ForwardEnabledIffProgress | src/components/survey/SurveyNavigation.tsx:24 | the forward button is enabled exactly when pressing it advances or submits |
| SurveyNavigation.SubmitDisabled | src/components/survey/SurveyNavigation.tsx:24 | disabled whenever the question cannot be left; otherwise enabled before the last question, and on the last disabled exactly when the name or the email is only whitespace |
| SurveyNavigation.ContactIrrelevantBeforeLast | src/components/survey/SurveyNavigation.tsx:24 | before the last question only the answer decides, and name and email play no part |
| SurveyNavigation.PreviousDisabled | src/components/survey/SurveyNavigation.tsx:30 | the back button is enabled exactly at a positive index, where stepping back is allowed |
| QuestionRenderer.Choices | src/components/survey/QuestionRenderer.tsx:14-95 | choice and rating widgets offer the question's options (none without options), yes/no widgets offer "yes" and "no", and text widgets offer no fixed choice |
| QuestionRenderer.Shown | src/pages/TakeSurveyPage.tsx:110 | a stored non-empty answer is shown as stored, and a missing one as the empty string |
| QuestionRenderer.EmittedChoiceIsOption | src/components/survey/QuestionRenderer.tsx:14-24 | a multiple-choice or rating widget stores only one of the question's own option strings, and nothing when the question has no options |
| QuestionRenderer.EmittedTextPreview | src/components/survey/QuestionRenderer.tsx:33-37 | the text widget stores a string, so the preview's whitespace check never meets a list: the question can be left exactly when it is optional or the text is not only whitespace |
| QuestionRenderer.ChoiceIsShownAndUnblocks | src/components/survey/QuestionRenderer.tsx:23-24 | picking a non-empty choice marks it, and only it, as selected, and lets the question be left |
| QuestionRenderer.YesNoAlwaysUnblocks | src/components/survey/QuestionRenderer.tsx:66-92 | a yes/no widget stores "yes" or "no", and either answer lets the question be left |
| QuestionRenderer.EmptyChoiceKeepsBlocked | src/components/survey/QuestionRenderer.tsx:17-24 | an option with empty text, once picked, keeps a required question blocked |
| QuestionRenderer.NothingCheckedBeforeAnswer | src/components/survey/QuestionRenderer.tsx:23 | before any answer no non-empty choice is shown as selected |
| SurveyPreview.PreviewStricterOnText | src/components/SurveyPreview.tsx:45 | for text questions, whatever the preview lets through, the respondent page lets through too |
| SurveyPreview.PreviewCanProceed | src/components/SurveyPreview.tsx:41-47 | an optional question passes; a required one needs a stored answer, and for text one that is not only whitespace; yes/no is judged like choice |
| SurveyPreview.WhitespaceTextDiffers | src/components/SurveyPreview.tsx:45 | a required text question answered with a blank passes on the respondent page but not in the preview |
| SurveyPreview.EmptyChoiceDiffers | src/components/SurveyPreview.tsx:44-46 | a required non-text question answered with the empty string passes in the preview but not on the respondent page |
| SurveyPreview.AgreeOffText | src/components/SurveyPreview.tsx:41-47 | away from text questions and empty strings the two rules agree in both directions |
| SurveyPreview.PreviewSession.constructor | src/components/SurveyPreview.tsx:12-14 | the preview starts at question 0 with no answers and not complete |
| SurveyPreview.PreviewSession.SetAnswer | src/components/SurveyPreview.tsx:20-25 | only that question's answer is replaced, and the index does not move |
| SurveyPreview.PreviewSession.Next | src/components/SurveyPreview.tsx:27-33 | the last question completes the preview; any other advances by one; the answers and the range of the index are kept |
| SurveyPreview.PreviewSession.Previous | src/components/SurveyPreview.tsx:35-39 | no change at index 0; otherwise one back; nothing else changes |
| CreateSurvey.Changed | src/pages/CreateSurveyPage.tsx:165-247 | each input replaces exactly its own field of the form |
| CreateSurvey.InitialForm | src/pages/CreateSurveyPage.tsx:17-27 | the form starts empty, inactive, with reward 2 and no expiry, on the package passed from pricing, or else on the first catalogue package |
| CreateSurvey.ValidateSubmit | src/pages/CreateSurveyPage.tsx:42-55 | the checks refuse a blank title, then an empty question list, then a blank question text; a submission passes exactly when none applies |
| CreateSurvey.ValidatePreview | src/pages/CreateSurveyPage.tsx:74-86 | the preview refuses a blank title, then an empty question list, and never checks question texts |
| CreateSurvey.PreviewIsWeaker | src/pages/CreateSurveyPage.tsx:39-86 | what can be submitted can be previewed, and the two differ only on a blank question text |
| CreateSurvey.SubmittedDraft | src/pages/CreateSurveyPage.tsx:57-68 | the survey handed over belongs to the signed-in company, takes the form's fields and the selected package's bound, and has no expiry for an empty input |
| CreateSurvey.PreviewSurvey | src/pages/CreateSurveyPage.tsx:88-108 | the previewed survey is the one a submission would create, under id "preview" and with no responses |
| CreateSurvey.SubmitIgnoresBound | src/pages/CreateSurveyPage.tsx:42-68 | a form with more questions than its package allows still passes the checks, and the stored survey exceeds its own bound |
| CreateSurvey.CreateSurveyForm.constructor | src/pages/CreateSurveyPage.tsx:20-27 | the page starts with the initial form, no questions and the preview closed |
| CreateSurvey.CreateSurveyForm.BuilderBound | src/pages/CreateSurveyPage.tsx:262 | the builder is handed the selected package's bound, which is 10, 30 or 100 |
| CreateSurvey.CreateSurveyForm.Change | src/pages/CreateSurveyPage.tsx:165-247 | only the form changes, by that one field |
| CreateSurvey.CreateSurveyForm.SetQuestions | src/pages/CreateSurveyPage.tsx:262 | only the questions change |
| CreateSurvey.CreateSurveyForm.Preview | src/pages/CreateSurveyPage.tsx:74-86 | the preview opens exactly when its checks pass, and then there is at least one question |
| CreateSurvey.CreateSurveyForm.ClosePreview | src/pages/CreateSurveyPage.tsx:88-108 | only the preview closes |
| CreateSurvey.CreateSurveyForm.Submit | src/pages/CreateSurveyPage.tsx:39-72 | a failed check is returned and the store is left alone; otherwise exactly the submitted draft is added under the fresh id for the signed-in company; the store's invariant is kept |
| EditSurvey.LoadedForm | src/pages/EditSurveyPage.tsx:29-41 | the form takes every field from the survey, and the expiry input is empty when the survey has none |
| EditSurvey.EditPatch | src/pages/EditSurveyPage.tsx:85-94 | the update never touches id, owner, responses or creation time; it carries the package's bound; an empty expiry input is sent as `undefined` |
| EditSurvey.EditKeepsIdentity | src/pages/EditSurveyPage.tsx:85-94 | saving keeps identity, owner, responses and creation time, takes every edited field from the form, and clears the expiry when the input was emptied |
| EditSurvey.SaveUnchangedRoundTrip | src/pages/EditSurveyPage.tsx:29-94 | loading a survey without expiry and saving it unchanged gives the same survey back, when its bound is its package's |
| EditSurvey.ViewOf | src/pages/EditSurveyPage.tsx:43-63 | nobody signed in is sent to login; otherwise an unknown id gets the not-found view, and a known one gets the form |
| EditSurvey.EditSurveyForm.constructor | src/pages/EditSurveyPage.tsx:18-25 | the page starts with the blank form and no questions |
| EditSurvey.EditSurveyForm.Load | src/pages/EditSurveyPage.tsx:29-41 | the form and the questions become the loaded survey's |
| EditSurvey.EditSurveyForm.Change | src/pages/EditSurveyPage.tsx:67-98 | only the form changes, by that one field |
| EditSurvey.EditSurveyForm.SetQuestions | src/pages/EditSurveyPage.tsx:67-98 | only the questions change |
| EditSurvey.EditSurveyForm.Submit | src/pages/EditSurveyPage.tsx:67-98 | the create page's checks decide; a failure leaves the store alone; otherwise the page's update is merged into the survey with that id, and the store's invariant is kept |
| ProtectedRoute.Guard | src/components/ProtectedRoute.tsx:16-27 | nobody signed in goes to login; a company without a valid package goes to pricing when the route needs one; otherwise the page is shown |
| ProtectedRoute.DefaultGuard | src/components/ProtectedRoute.tsx:12 | without the flag, the page is shown exactly to a signed-in company with a valid package |
| ProtectedRoute.PackageRequirementOnlyAddsPricing | src/components/ProtectedRoute.tsx:12-27 | requiring a package only ever turns a shown page into the pricing redirect |
| ProtectedRoute.HasValidPackage | src/components/ProtectedRoute.tsx:22 | every catalogue package id counts as a valid subscription; an empty subscription and the "none" package do not |
| Navigation.CreateSurveyTarget | src/components/Navigation.tsx:31-45 | the create button goes to login, then pricing without a package, else to the form |
| Navigation.CreateButtonAgreesWithGuard | src/components/Navigation.tsx:31-45 | the button reaches the form exactly when the guard would show it, and otherwise takes the guard's own redirect |
| Navigation.ShowsCompanyLinks | src/components/Navigation.tsx:47 | the company links appear exactly when the guard would show the company pages |
| Navigation.CompanyLogout | src/components/Navigation.tsx:21-25 | the company is signed out and the browser goes home; every guarded page then redirects to login |
| Navigation.UserLogout | src/components/Navigation.tsx:26-29 | the respondent is signed out and the browser goes home; no survey is then a favourite |
| LoginPage.Target | src/pages/LoginPage.tsx:39-86 | sign-in goes to the dashboard with a package and to pricing without one; registration without a package choice goes to pricing; registration goes to the dashboard; a failure stays |
| LoginPage.LoginForm.constructor | src/pages/LoginPage.tsx:9-15 | the form starts in sign-in mode with empty inputs |
| LoginPage.LoginForm.ToggleMode | src/pages/LoginPage.tsx:214 | only the mode flips |
| LoginPage.LoginForm.SetInputs | src/pages/LoginPage.tsx:90-95 | only the inputs change |
| LoginPage.LoginForm.Submit | src/pages/LoginPage.tsx:30-88 | sign-in follows the store's email match; registration without a package choice changes nothing; registration with one follows the duplicate-email check and sets the chosen package as subscription; a signed-in company with a package passes the default guard |
| LoginPage.RegisteredWithTierPassesGuard | src/pages/LoginPage.tsx:73-82 | a company registered with a catalogue package is let through by the default guard |
| LoginPage.RegisteredWithoutTierBounces | src/pages/LoginPage.tsx:73-82 | a company whose subscription is "none" is sent from the dashboard to pricing |
| QuestionAnalytics.Collected | src/components/analytics/QuestionAnalytics.tsx:28 | one collected answer per response that answers the question with a truthy value, in response order, each that response's stored answer; none of them is the empty string |
| QuestionAnalytics.CollectedExact | src/components/analytics/QuestionAnalytics.tsx:28 | an answer is collected exactly when some response holds it for the question and it is not the empty string |
| QuestionAnalytics.AnswerKey | src/components/analytics/QuestionAnalytics.tsx:33 | a string is counted under itself and a list under its items joined with ", " |
| QuestionAnalytics.Keys | src/components/analytics/QuestionAnalytics.tsx:32-33 | one key per answer, in answer order |
| QuestionAnalytics.TallyStep | src/components/analytics/QuestionAnalytics.tsx:34 | one more answer bumps its existing entry or creates one at 1 (appending the key to the order), and the tally then covers the longer list |
| QuestionAnalytics.Tally | src/components/analytics/QuestionAnalytics.tsx:30-35 | every distinct key gets exactly one entry, holding its number of occurrences; the first-insertion order is the distinct keys, each first occurring before the next; the counts add up to the number of answers |
| QuestionAnalytics.TextSample | src/components/analytics/QuestionAnalytics.tsx:72-86 | the first five answers (or all, if fewer) are shown, plus how many more there are, which is positive exactly for more than five |
| QuestionAnalytics.NothingHiddenWithoutResponses | src/components/analytics/QuestionAnalytics.tsx:92 | the analysis is hidden only where no answer would be collected for any question |
| DashboardStats.Truncated | src/components/DashboardStats.tsx:20 | a title of up to 15 characters is kept; a longer one is cut to 15 and marked with "..." |
| DashboardStats.SurveyData | src/components/DashboardStats.tsx:19-24 | one bar per company survey, in order, with its label, responses, rewards paid and question count |
| DashboardStats.BarSums | src/components/DashboardStats.tsx:19-24 | the bars' rewards and responses add up to the totals of the surveys |
| DashboardStats.BarsMatchStats | src/components/DashboardStats.tsx:16-24 | the bars add up to the store's statistics for the company |
| DashboardStats.BumpStep | src/components/DashboardStats.tsx:28-29 | bumping the existing entry for a package extends the distribution by that survey |
| DashboardStats.PushStep | src/components/DashboardStats.tsx:30-32 | pushing a new entry for a package not yet listed extends the distribution by that survey |
| DashboardStats.PackageDistribution | src/components/DashboardStats.tsx:26-34 | one entry per package used, each first appearing before the next, counting its surveys; the counts add up to the number of surveys |
| DashboardStats.MonthlyData | src/components/DashboardStats.tsx:36-40 | the i-th point is labelled "Month " and digits denoting i+1, counts i+1 surveys, and carries the i-th survey's responses, whatever the dates |
| DashboardStats.HasDataIffSurveys | src/components/DashboardStats.tsx:42 | the charts appear exactly when the statistics count a survey for the company, and then at least one bar is drawn |
| UserDashboard.FavoriteSurveys | src/pages/UserDashboardPage.tsx:29 | the favourites tab is never longer than the survey list |
| UserDashboard.CompletedSurveys | src/pages/UserDashboardPage.tsx:30-32 | the completed tab holds only surveys on the user's completed list |
| UserDashboard.TabsExact | src/pages/UserDashboardPage.tsx:28-32 | favourites are exactly the active favourited surveys; the completed tab is exactly those on the completed list, active or not |
| UserDashboard.TabList | src/pages/UserDashboardPage.tsx:37-47 | each tab holds exactly its surveys: the active ones, the active favourites, or those on the completed list, active or not |
| UserDashboard.SearchLaws | src/pages/UserDashboardPage.tsx:49-55 | the search ignores the case of the term too, and an empty term matches every survey, so skipping the filter for it changes nothing |
| UserDashboard.TotalEarnings | src/pages/UserDashboardPage.tsx:60 | every survey's reward counted when it is on the completed list and 0 otherwise; with no negative reward, between 0 and all rewards on offer |
| UserDashboard.DashboardView.constructor | src/pages/UserDashboardPage.tsx:12-13 | the dashboard starts on the available tab with an empty search |
| UserDashboard.DashboardView.SelectTab | src/pages/UserDashboardPage.tsx:12 | only the tab changes |
| UserDashboard.DashboardView.SetSearchTerm | src/pages/UserDashboardPage.tsx:13 | only the search term changes |
| UserDashboard.DashboardView.Filtered | src/pages/UserDashboardPage.tsx:34-58 | the whole tab list for an empty term; otherwise exactly the tab's surveys whose title, description or company name contains the term ignoring case; tab order is kept |
| SurveysList.Listed | src/pages/SurveysListPage.tsx:13 | exactly the active surveys are listed, in store order |
| SurveysList.PossibleEarnings | src/pages/SurveysListPage.tsx:67 | every survey's reward counted when it is active and 0 otherwise; with no negative reward, between 0 and all rewards on offer |
| SurveysList.ResponsesSubmitted | src/pages/SurveysListPage.tsx:76 | the sum over all surveys of the response count of each active survey (0 for an inactive one), never negative and never more than all responses |
| SurveysList.ActiveResponsesMasked | src/pages/SurveysListPage.tsx:76 | summing the responses of the active surveys is summing every survey's responses with the inactive ones counted as 0, by induction |
| SurveysList.ActiveResponsesBounded | src/pages/SurveysListPage.tsx:76 | the active surveys have no more responses in total than all surveys |
| SurveysList.MinutesEstimate | src/pages/SurveysListPage.tsx:188 | the estimate is the least whole number of minutes covering half a minute per question |
| SurveysList.EstimateMonotone | src/pages/SurveysListPage.tsx:197 | one more question adds at most one minute, and never removes one |
| CompanyProfile.SavedCompany | src/pages/CompanyProfilePage.tsx:32-47 | a blank name or email is refused; otherwise both are stored trimmed and every other field is kept |
| CompanyProfile.SaveTwiceIsSaveOnce | src/pages/CompanyProfilePage.tsx:38-42 | saving the saved values again changes nothing |
| CompanyProfile.CountsOf | src/pages/CompanyProfilePage.tsx:216-236 | active ≤ total ≤ all surveys, and total and responses agree with the store's statistics |
| CompanyProfile.CompanyProfileForm.constructor | src/pages/CompanyProfilePage.tsx:11-15 | the inputs start from the signed-in company, or empty, and are closed |
| CompanyProfile.CompanyProfileForm.StartEditing | src/pages/CompanyProfilePage.tsx:101 | only editing opens |
| CompanyProfile.CompanyProfileForm.SetInputs | src/pages/CompanyProfilePage.tsx:11-15 | only the inputs change |
| CompanyProfile.CompanyProfileForm.Save | src/pages/CompanyProfilePage.tsx:32-47 | a refusal changes nothing; a save replaces only the signed-in record, leaves the company collection as it was, and ends editing |
| CompanyProfile.CompanyProfileForm.Cancel | src/pages/CompanyProfilePage.tsx:49-55 | the inputs go back to the company's values and editing ends |
| UserProfile.SavedUser | src/pages/UserProfilePage.tsx:30-45 | a blank name or email is refused; otherwise both are stored trimmed and every other field, the survey lists included, is kept |
| UserProfile.SaveTwiceIsSaveOnce | src/pages/UserProfilePage.tsx:36-40 | saving the saved values again changes nothing |
| UserProfile.FilterOtherLength | src/contexts/UserContext.tsx:135 | in a list without duplicates, removing an id shortens it by one exactly when the id was there |
| UserProfile.FavoriteCountAfterToggle | src/pages/UserProfilePage.tsx:185 | the favourites count shown drops by one when a favourite is toggled off and rises by one when a survey is toggled on |
| UserProfile.UserProfileForm.constructor | src/pages/UserProfilePage.tsx:11-15 | the inputs start from the signed-in user, or empty, and are closed |
| UserProfile.UserProfileForm.StartEditing | src/pages/UserProfilePage.tsx:90 | only editing opens |
| UserProfile.UserProfileForm.SetInputs | src/pages/UserProfilePage.tsx:11-15 | only the inputs change |
| UserProfile.UserProfileForm.Save | src/pages/UserProfilePage.tsx:30-45 | a refusal changes nothing; a save replaces only the signed-in record, leaves the users list as it was, and ends editing |
| UserProfile.UserProfileForm.Cancel | src/pages/UserProfilePage.tsx:47-53 | the inputs go back to the user's values and editing ends |

## Left out

- Persistence: browser local storage, JSON parsing and the seed data are not modelled; the stores start empty. The seed data includes a premium survey with a bound of 50, which no operation produces.
- Identifiers and timestamps: `uuid` and `new Date()` become parameters. Preconditions say that each new identifier is fresh.
- Lower-casing: only ASCII letters are modelled, not Unicode case mapping.
- Floating point: `rewardPerResponse` is an exact real. A NaN coming out of `parseFloat` on the reward input is not modelled.
- Rendering and browser behaviour outside the logic:
  - the rating average in the analytics;
  - progress-bar and chart widths;
  - the simulated payment on the pricing page;
  - the QR code, the clipboard and the embed code;
  - toasts and router plumbing;
  - purely presentational components;
  - HTML `required` and `type=email` validation on the login form.
- QuestionAnalytics.Tally: the map's iteration order is not modelled. `Object.entries` lists integer-like keys first, and `order` describes insertion order only.
- QuestionAnalytics.Tally: the source counts into a plain object, so a key that names an inherited `Object.prototype` member is mis-counted there and not in the model. `constructor`, `toString` or `valueOf` start from the inherited function and end up as text rather than a number, and an assignment to `__proto__` is dropped, so that answer gets no entry. The model's map counts every key.
- DashboardStats.Truncated: lengths are counted in Unicode scalar values, while `length` and `substring` count UTF-16 code units. The two agree only for titles whose characters all lie in the Basic Multilingual Plane; a title with emoji is cut at a different place, or not cut, in the source.
- Unknown question types: a question whose type is outside the four kinds makes the renderer show nothing. The model's question type has only the four kinds.
- Completed surveys: nothing in the source adds a survey to a user's completed list, so the list is only read.
- LoginPage.LoginForm.Submit: the `catch` around the sign-in branch can never be reached, because sign-in does not throw, so it is not modelled.
- SurveyPreview.PreviewCanProceed: when a required text question holds a list, the source's `answer.trim()` throws a TypeError; the model returns false there instead. No widget stores a list for a text question (`QuestionRenderer.EmittedTextPreview`), so that branch is never reached.
- TakeSurvey.TakeSurveySession: the page looks the survey up again on every render. The session keeps the survey it looked up on entry, since no operation on the page changes that survey's questions.
- EditSurvey.LoadedForm: the expiry date is reformatted for the date-time input, and that formatting depends on the time zone. It is the `expiryInput` parameter instead.
- Partial updates: a key carried with the value `undefined` is modelled only for the expiry and for the question options, which are the only places the pages send one.
- EditSurvey.EditSurveyForm.Submit: neither the source nor the model checks that the signed-in company owns the survey it edits.
- CreateSurvey.CreateSurveyForm.Submit: the route guard redirects when nobody is signed in, so the precondition that a company is signed in stands for that redirect.
- SurveyContext.SurveyStore.GetCompanyStats: its contract only names `Stats`. The properties of the statistics are the lemmas on `Stats`.
