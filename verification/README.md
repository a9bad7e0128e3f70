# RIASEC vocational quiz — a verified Dafny model

The application is a Portuguese-language RIASEC quiz. Each question sets two Holland types against each other. Answering "sim" (yes) awards the question's `yesType`, and answering "não" (no) awards its `noType`. A session draws 18 questions: six from each of the axis pairs R×I, A×C and S×E. Each drawn side is stamped with a random subtype ("subdivision") of the type it awards.

The results screen then does the following:
- counts points per type and picks the dominant type;
- lists the activated subtype labels;
- matches a catalogue of careers against the per-type subtype counts, ranking them into four tiers (Excelente, Bom, Atenção, Refazer) of at most four careers each.

An admin area covers the question bank, the career catalogue and the six type profiles:
- it edits all three, with validation;
- it filters and counts them;
- it imports careers from a spreadsheet, validated row by row.

This project models that logic as pure Dafny functions over immutable datatypes and proves what the code promises.

| module (file) | models |
|---|---|
| `Wrappers` (wrappers.dfy) | `Option` and `Result`, for `undefined` and for rejected inputs |
| `Seqs` (seqs.dfy) | filter, count, map, sum, histogram (`Record<string, number>` counting) and their algebra |
| `Sorting` (sorting.dfy) | insertion sort by a strict order; a sort by a strict total order has exactly one sorted permutation |
| `Text` (text.dfy) | JavaScript `trim` (the WhiteSpace and LineTerminator sets), `toUpperCase`/`toLowerCase` on ASCII and Latin-1 letters, `includes`, decimal `String(n)`, `padStart`, `join` |
| `QuizQuestions` (quiz_questions.dfy) | `src/data/quizQuestions.ts`: types, `computeSubtypeCounts`, `shuffle`, `randomPick`, `getRandomQuestions`, the profile table |
| `QuestionBank` (question_bank.dfy) | the 300-question compiled bank and its shape |
| `CareerDetails` (career_details.dfy) | `src/data/careerDetails.ts`: the career record and the 30 compiled careers |
| `CatalogueChecks` (catalogue_checks.dfy) | the five catalogue rules of `src/test/phantom-subtypes.test.ts` |
| `ResultsScreen` (results_screen.dfy) | `calculateScores`, `calculateSimNao`, `getActivatedLabels`, dominant type |
| `CareersTab` (careers_tab.dfy) | `getMatchLevel` and the `groupedCareers` pipeline |
| `ImportCareers` (import_careers.dfy) | row validation of `parseFile` and the confirm gate |
| `AdminData` (admin_data.dfy) | `src/hooks/useAdminData.ts`: the store, its updates and resets, `load`, `getTypeForSubtype`, `ALL_SUBTYPES` |
| `Admin` (admin.dfy) | the three `saveEdit` validators, the two list filters, the count tables of `src/pages/Admin.tsx` |
| `SubtypeModal` (subtype_modal.dfy) | total, chips and the two-digit badge of `SubtypeModal.tsx` |
| `QuizScreen` (quiz_screen.dfy) | the answer/back navigation of `QuizScreen.tsx` |
| `IndexPage` (index_page.dfy) | the landing/quiz/results screen machine of `src/pages/Index.tsx` |

## Modelling choices

- **Randomness.** `Math.random` is nondeterministic choice (`:|`) inside methods.
  - `Shuffle` may return any permutation.
  - `RandomPick` may return any element.
  - Every property of `GetRandomQuestions` therefore holds for every possible draw.
- **The subtype-to-type table.** `subtypeTypeMap` is an input `map<string, RiasecType>`. It is imported but not defined in the career data file, and `src/data/careerDetails.ts` is the only place it could come from.
- **Related subtypes.** `relatedSubtypes` is modelled as a sequence of (label, type) pairs. `careerDetails.ts` declares `string[]` and its literal entries are bare labels, but every consumer (`CareersTab.tsx`, `ImportCareersModal.tsx`, `Admin.tsx`, the catalogue test) reads `.label` and `.type`. The compiled catalogue pairs each label with the career's own type.
- **The career's type.** `career.type` is the field `riasecType`.
- **Results-screen questions.** `ResultsScreen.tsx` reads `yesLabel`/`noLabel` from its questions, which the `Question` interface of this version of the code does not have. Those questions get their own datatype (`ResultsScreen.ResultsQuestion`).
- **Answers.** `QuizScreen` and `Index` store answers as `Record<number, number>`, while scoring reads `'yes' | 'no'`. The navigation machines are therefore generic in the answer value.
- **`replaceCareers`.** `Admin.tsx` takes `replaceCareers` from `useAdminData`, which does not return it in this version of the code. It is modelled as replacing the whole catalogue (`AdminData.ReplaceCareers`).
- **The question subtype table.** The admin table counts `subtypeCounts[q.yesSub]` even when the question has no subtype. In JavaScript that key is the string `"undefined"`, and `Admin.SubKey` models that key.
- **Stable sorts.** Both stable sorts are modelled as sorts by a strict total order:
  - on the results screen, score descending and then insertion order R, I, A, S, E, C;
  - in the careers tab, the comparator's last key, the catalogue index.
  A stable sort with such a comparator has exactly one possible result.
- **Store edits by position.** `findIndex` returning −1 makes `updateQuestion` write to index −1. That is a no-op on the array's elements, so `Admin.ApplyQuestionEdit` leaves the store unchanged when the id is absent.

## Model

| member | source | states |
|---|---|---|
| QuizQuestions.ComputeSubtypeCounts | src/data/quizQuestions.ts:5-21 | a label is a key exactly when some answered question whose chosen side carries that non-empty label, and whose awarded type passes the optional filter, contributes it; its value is the number of such questions |
| QuizQuestions.SubtypeCountsTotal | src/data/quizQuestions.ts:10-20 | every present count is at least 1, and the counts add up to the number of contributing questions |
| QuizQuestions.NonContributingIgnored | src/data/quizQuestions.ts:12-17 | appending a question that is unanswered, whose chosen side has no or an empty subtype, or whose awarded type fails the filter leaves the counts unchanged |
| QuizQuestions.TimesCountedFiltered | src/data/quizQuestions.ts:15-17 | counting a label with a type filter equals counting it, unfiltered, over only the questions whose answer awards that type |
| QuizQuestions.FilteredCountsOnlyThatType | src/data/quizQuestions.ts:15-17 | the filtered table equals the unfiltered table of the questions that award the filter type |
| QuizQuestions.TypeIndex | src/data/quizQuestions.ts:1 | each type has one position among the six, in R, I, A, S, E, C order |
| QuizQuestions.Shuffle | src/data/quizQuestions.ts:340-347 | the result is a permutation of the argument: same length, same multiset |
| QuizQuestions.RandomPick | src/data/quizQuestions.ts:375-377 | the pick is an element of the array; there is no pick exactly when the array is empty |
| QuizQuestions.TakeFromPair | src/data/quizQuestions.ts:359-365 | min(6, group size) questions drawn without repetition from one pair's group, all of that pair in either orientation |
| QuizQuestions.GetRandomQuestions | src/data/quizQuestions.ts:353-373 | each axis pair contributes exactly min(6, its group size) questions; the length is their sum; the result is a sub-multiset of the bank up to the stamped subtypes; each side's subtype comes from its own type's subdivisions |
| QuizQuestions.SelectionFacts | src/data/quizQuestions.ts:359-372 | three draws from the three pair groups together form a sub-multiset of the bank, and the reshuffled session keeps each pair's count |
| QuizQuestions.PairCountCarried | src/data/quizQuestions.ts:364-372 | re-ordering and stamping subtypes does not change how many questions belong to a pair |
| QuizQuestions.PairsExclusive | src/data/quizQuestions.ts:354-362 | no question belongs to two of the axis pairs |
| QuizQuestions.FullSessionSize | src/data/quizQuestions.ts:337-355 | when every group holds at least six questions, the session has exactly QUIZ_SIZE = 18 questions |
| QuizQuestions.DefaultProfilesTotal | src/data/quizQuestions.ts:389-444 | the profile table has an entry for each of the six types, and each entry carries its own type |
| QuizQuestions.DefaultProfilesNotAPartition | src/data/quizQuestions.ts:397-442 | the compiled profiles break the ten-subdivision and partition conventions: R lists 12, and PLANEJAMENTO is under both I and C |
| QuestionBank.AllQuestionsShape | src/data/quizQuestions.ts:33-334 | 300 questions with ids 1..300 in order, each with two different types forming one of the three axis pairs and with no subtype; the pair groups have 102, 102 and 96 questions |
| QuestionBank.DefaultSessionIsFull | src/data/quizQuestions.ts:337-365 | sampling the compiled bank always yields a full session of 18 |
| CareerDetails.Labels | src/data/careerDetails.ts:3-10 | the label list has one entry per related subtype, in order |
| CareerDetails.DefaultCareersShape | src/data/careerDetails.ts:12-264 | 30 careers in blocks of five per type in R, I, A, S, E, C order; each lists four distinct labels of its own type, all drawn from its type's subdivisions |
| CareerDetails.AdministracaoTwice | src/data/careerDetails.ts:183-242 | the name "Administração" appears twice, once as E and once as C, so careers are told apart by (name, type) only |
| CatalogueChecks.InvalidSlotsEmpty | src/test/phantom-subtypes.test.ts:7-17 | the list of unofficial slots is empty exactly when every related-subtype label is a key of the official table |
| CatalogueChecks.DuplicateReportsEmpty | src/test/phantom-subtypes.test.ts:19-28 | no career is reported exactly when no career lists a label twice |
| CatalogueChecks.FourSlotsEach | src/test/phantom-subtypes.test.ts:30-35 | with four related subtypes per career the catalogue has 4·n slots, so a 600-career catalogue has the 2400 slots the first rule names |
| CatalogueChecks.DefaultCareersHavePhantoms | src/data/careerDetails.ts:23-44 | the compiled catalogue lists COISAS (Mecânica) and ESTABILIDADE (Construção Civil), so the phantom rule fails on it |
| CatalogueChecks.OwnTypeFailuresEmpty | src/test/phantom-subtypes.test.ts:46-57 | no failure is reported exactly when every career has at least two related subtypes that the table assigns to the career's own type; every reported count is below two |
| CatalogueChecks.OwnTypeWhenAllMapped | src/test/phantom-subtypes.test.ts:49-51 | a career whose every label maps to its own type counts all its slots as own-type |
| ResultsScreen.Bump | src/components/ResultsScreen.tsx:25-26 | one point goes to one type, the others keep theirs, and the total grows by one |
| ResultsScreen.CalculateScores | src/components/ResultsScreen.tsx:21-29 | each type's score is the number of answered questions whose answer awards that type |
| ResultsScreen.ScoresTotal | src/components/ResultsScreen.tsx:23-27 | the six scores add up to the number of answered questions |
| ResultsScreen.CalculateSimNao | src/components/ResultsScreen.tsx:31-40 | sim counts the yes-answers awarding each type, and não counts the no-answers awarding it |
| ResultsScreen.SimNaoSplitScores | src/components/ResultsScreen.tsx:25-37 | for every type, sim plus não equals its score |
| ResultsScreen.SimNaoTotals | src/components/ResultsScreen.tsx:31-40 | sim's total is the number of yes-answers and não's total is the number of no-answers |
| ResultsScreen.GetActivatedLabels | src/components/ResultsScreen.tsx:42-50 | each type's list holds the chosen side's label of exactly the questions awarding that type, in question order |
| ResultsScreen.LabelsMatchScores | src/components/ResultsScreen.tsx:42-50 | each type's label list is as long as its score |
| ResultsScreen.Entries | src/components/ResultsScreen.tsx:64 | the entries are the six (type, score) pairs in insertion order R, I, A, S, E, C |
| ResultsScreen.BeforeStrictTotal | src/components/ResultsScreen.tsx:64-66 | "higher score, then earlier type" is a strict total order on entries of different types |
| ResultsScreen.SortedEntriesOrder | src/components/ResultsScreen.tsx:64-66 | the sorted entries are a permutation of the six, scores non-increasing, ties in insertion order, each with its type's score |
| ResultsScreen.SortedEntries | src/components/ResultsScreen.tsx:64-66 | the sorted list has six entries and is a permutation of the insertion-order entries |
| ResultsScreen.DominantType | src/components/ResultsScreen.tsx:64-67 | the dominant type is the first sorted entry's type, and that entry carries its score |
| ResultsScreen.DominantTypeIsFirstMaximum | src/components/ResultsScreen.tsx:64-67 | the dominant type has the highest score, and on a tie it is the first in R, I, A, S, E, C order |
| CareersTab.GetMatchLevel | src/components/CareersTab.tsx:11-16 | Excelente exactly for 4 or more matches, Bom exactly for 3, Atenção exactly for 2, Refazer exactly for 1 or fewer |
| CareersTab.CountKeyInjective | src/components/CareersTab.tsx:42-45 | the lookup key `type_label` determines the related subtype, so different subtypes never share a count |
| CareersTab.MatchCount | src/components/CareersTab.tsx:41-43 | the match count never exceeds the number of related subtypes |
| CareersTab.MatchCountZero | src/components/CareersTab.tsx:41-43 | the match count is zero exactly when none of the related subtypes has a positive count |
| CareersTab.MatchCountFull | src/components/CareersTab.tsx:41-43 | the match count equals the number of related subtypes exactly when all of them have a positive count |
| CareersTab.SubtypeSum | src/components/CareersTab.tsx:44-46 | with non-negative counts the sum is non-negative, and zero exactly when every related subtype's count (missing as 0) is zero |
| CareersTab.SumAtLeastMatches | src/components/CareersTab.tsx:41-46 | with non-negative counts, the subtype sum is at least the match count |
| CareersTab.ScoreAll | src/components/CareersTab.tsx:40-49 | one scored entry per career, in catalogue order, carrying its index, the number of its related subtypes with a positive `type_label` count, the sum of those counts (missing counts as 0), and the level its match count earns |
| CareersTab.OutranksStrictTotal | src/components/CareersTab.tsx:52-59 | the four-key comparator is a strict total order on entries with different indices |
| CareersTab.Ranked | src/components/CareersTab.tsx:52-59 | the ranking is a permutation of the scored entries, and when their indices differ it is sorted by the comparator |
| CareersTab.ScoreAllApart | src/components/CareersTab.tsx:40-49 | scored entries have pairwise different indices |
| CareersTab.RankedOrder | src/components/CareersTab.tsx:52-59 | the ranking is a permutation of the scored careers, sorted by the comparator, and the only such sorted permutation |
| CareersTab.TiersPartition | src/components/CareersTab.tsx:61-69 | the four tiers together hold every ranked entry exactly once, each in the tier of its level, and each tier keeps the ranked order |
| CareersTab.Tier | src/components/CareersTab.tsx:61-69 | a tier holds exactly the ranked entries at its level, as a subsequence of the ranking |
| CareersTab.PartsOfTier | src/components/CareersTab.tsx:74-75 | the dominant-type and other entries split a tier |
| CareersTab.TrimTier | src/components/CareersTab.tsx:72-82 | the trimmed tier has min(4, tier size) entries, all from the tier |
| CareersTab.Tab | src/components/CareersTab.tsx:61-82 | a tab holds at most four ranked entries, all at its level |
| CareersTab.GroupedCareers | src/components/CareersTab.tsx:38-84 | each of the four tabs holds at most four entries, each at that tab's level |
| CareersTab.TrimTierShape | src/components/CareersTab.tsx:72-82 | the trimmed tier has min(4, tier size) entries drawn from the tier: first the first min(4, #dominant) dominant-type entries, then the first remaining other entries |
| CareersTab.DominantComeFirst | src/components/CareersTab.tsx:52-56 | in a ranked tier of equal match counts, every dominant-type entry precedes every other entry |
| CareersTab.TrimTierOfEvenTier | src/components/CareersTab.tsx:72-82 | for such a tier, trimming keeps its first four entries |
| CareersTab.GroupedCareersShape | src/components/CareersTab.tsx:38-84 | each tab shows min(4, number of careers at that level) entries, each its own catalogue entry at that level, carrying that career's match count and subtype sum and the level the match count earns |
| CareersTab.EvenTabsShowTopFour | src/components/CareersTab.tsx:61-82 | the Bom and Atenção tabs show exactly the first four of their ranked tier |
| ImportCareers.ParseRow | src/components/ImportCareersModal.tsx:51-89 | a rejected row becomes one error on line i + 2 that lists the row's problems, never an empty list |
| ImportCareers.TextField | src/components/ImportCareersModal.tsx:53-60 | a read cell has no white space at either end; a missing column reads as empty; the field is empty exactly when the cell is blank |
| ImportCareers.SubtypeField | src/components/ImportCareersModal.tsx:55-58 | a missing column reads as empty, and the subtype is empty exactly when the cell is blank |
| ImportCareers.ReadRow | src/components/ImportCareersModal.tsx:53-65 | four subtype cells in order D1, D2, S1, S2; name, description, strengths and weaknesses carry no outer white space; a missing column gives an empty field |
| ImportCareers.FieldProblems | src/components/ImportCareersModal.tsx:62-71 | "Profissão vazia", "Descrição vazia", the blank-subtype count and "Subtipos duplicados" are each reported exactly when their condition holds, never an unknown subtype, and nothing exactly when all four checks pass |
| ImportCareers.UnknownProblems | src/components/ImportCareersModal.tsx:73-75 | one "Subtipo desconhecido" entry per unknown cell, naming exactly those cells |
| ImportCareers.Problems | src/components/ImportCareersModal.tsx:62-75 | a row has no problems exactly when it is not refused, and an unknown subtype is reported exactly for filled cells missing from the official table |
| ImportCareers.UnknownFlagged | src/components/ImportCareersModal.tsx:66-75 | a row without problems has only non-empty, official subtype cells |
| ImportCareers.ProblemsIff | src/components/ImportCareersModal.tsx:62-75 | a row has problems exactly when its name or description is blank, a subtype cell is blank, two filled cells repeat a label, or a filled cell is unknown |
| ImportCareers.RowRejectedIff | src/components/ImportCareersModal.tsx:62-78 | a row is rejected exactly when it is refused by those rules |
| ImportCareers.AcceptedRowShape | src/components/ImportCareersModal.tsx:53-88 | an accepted career carries the trimmed text fields and the trimmed, upper-cased subtype cells in order D1, D2, S1, S2, each paired with its mapped type, with D1's type as the career's type |
| ImportCareers.AcceptedFieldsShape | src/components/ImportCareersModal.tsx:80-88 | the career built from an unrefused row carries its fields over and has four distinct official labels |
| ImportCareers.Outcomes | src/components/ImportCareersModal.tsx:51 | one outcome per row, each row parsed with its own position |
| ImportCareers.AcceptedRejectedSplit | src/components/ImportCareersModal.tsx:77-89 | every outcome is counted once, as an accepted career or as an error |
| ImportCareers.RowLoop | src/components/ImportCareersModal.tsx:48-90 | the loop appends the accepted careers and the errors of the remaining rows, in row order |
| ImportCareers.ParseRows | src/components/ImportCareersModal.tsx:36-92 | an empty sheet gives only the empty-file error; a missing column gives no careers and one error; otherwise careers plus errors number the rows and the preview is the first min(5, rows) rows; the preview is empty on either error |
| ImportCareers.ValidateRows | src/components/ImportCareersModal.tsx:48-92 | careers plus errors number the rows, and the preview is the first min(5, rows) rows |
| ImportCareers.MissingColumnsIff | src/components/ImportCareersModal.tsx:11-43 | no column is reported missing exactly when the first row has every required column |
| ImportCareers.EmptySheet | src/components/ImportCareersModal.tsx:36-39 | an empty sheet gives no careers and exactly one error |
| ImportCareers.MissingColumnsReported | src/components/ImportCareersModal.tsx:41-45 | a missing required column gives no careers and a single error naming exactly the missing required columns |
| ImportCareers.RowsAccountedFor | src/components/ImportCareersModal.tsx:48-92 | with all columns present, careers plus errors number the rows, and every error is the problem line i + 2 of a refused row |
| ImportCareers.RejectedAreRefusedRows | src/components/ImportCareersModal.tsx:62-78 | every error belongs to a refused row and reports that row's problems |
| ImportCareers.AcceptedAreCareers | src/components/ImportCareersModal.tsx:79-88 | every accepted career has four distinct official labels paired with their mapped types, and D1's type |
| ImportCareers.ImportedCareersWellFormed | src/components/ImportCareersModal.tsx:79-92 | every imported career passes the official-labels catalogue rule |
| ImportCareers.Confirm | src/components/ImportCareersModal.tsx:119-124 | careers are handed over exactly when there is a result with no errors and at least one career, and then they are that result's careers |
| ImportCareers.ConfirmedImportIsWholeSheet | src/components/ImportCareersModal.tsx:51-124 | a confirmed import holds one career per row, and no row was refused |
| AdminData.Load | src/hooks/useAdminData.ts:11-17 | the stored value is used when it is present, non-empty and readable; otherwise the fallback is used |
| AdminData.InitialStore | src/hooks/useAdminData.ts:33-35 | each of the three collections, independently, is the stored value when its stored text is present, non-empty and readable, and otherwise the compiled questions, careers or profiles |
| AdminData.UpdateQuestion | src/hooks/useAdminData.ts:37-44 | the length is kept, the position is replaced, every other position and the other collections are unchanged |
| AdminData.UpdateCareer | src/hooks/useAdminData.ts:46-53 | the length is kept, the position is replaced, every other position and the other collections are unchanged |
| AdminData.UpdateProfile | src/hooks/useAdminData.ts:55-61 | the key holds the new profile; every other key keeps its presence and value; a table with all six types keeps all six; questions and careers are unchanged |
| AdminData.UpdateQuestionOverwrites | src/hooks/useAdminData.ts:37-44 | a second update of a position overrides the first, and writing back the current question changes nothing |
| AdminData.UpdateCareersCommute | src/hooks/useAdminData.ts:46-53 | updates of two different positions commute |
| AdminData.UpdateProfileOverwrites | src/hooks/useAdminData.ts:55-61 | a second update of a type overrides the first, and writing back the current profile changes nothing |
| AdminData.ReplaceCareers | src/pages/Admin.tsx:397-401 | the whole catalogue is replaced, and questions and profiles are unchanged |
| AdminData.ResetQuestions | src/hooks/useAdminData.ts:63-66 | the questions return to the compiled bank, and the rest is unchanged |
| AdminData.ResetCareers | src/hooks/useAdminData.ts:68-71 | the careers return to the compiled catalogue, and the rest is unchanged |
| AdminData.ResetProfiles | src/hooks/useAdminData.ts:73-76 | the profiles return to the compiled table, and the rest is unchanged |
| AdminData.ResetUndoesEdits | src/hooks/useAdminData.ts:37-76 | each reset erases any earlier edit of its collection (a question update, a career update, a catalogue replacement, a profile update), and applying a reset twice is the same as once |
| AdminData.GetTypeForSubtype | src/hooks/useAdminData.ts:28-30 | a type is returned exactly for official labels, and it is that label's mapped type |
| AdminData.AllSubtypes | src/hooks/useAdminData.ts:26-30 | the list holds exactly the official labels, each once, and every label it offers has its mapped type |
| Admin.LetterInjective | src/pages/Admin.tsx:97 | two types have the same letter exactly when they are equal |
| Admin.SaveQuestionEdit | src/pages/Admin.tsx:106-111 | saving succeeds exactly when the trimmed text is non-empty and both subtypes are official; blank text is the "Texto não pode ficar vazio" error; on success the id is kept, the text is trimmed, the subtypes are stored and each side's type is its subtype's mapped type |
| Admin.QuestionEditAllowsOneSidedQuestion | src/pages/Admin.tsx:107-111 | the edit does not check that the two sides differ: two labels of the same type give a saved question with yesType equal to noType |
| Admin.QuestionEditEffect | src/pages/Admin.tsx:111-144 | with unique ids, a rejected edit leaves the store unchanged and an accepted one updates exactly the edited question's position |
| Admin.ApplyQuestionEdit | src/pages/Admin.tsx:106-111 | careers, profiles and the number of questions are kept; a rejected edit, or an id no question has, leaves the store unchanged; every changed position held the edited id and now holds the saved question |
| Admin.SaveCareerEdit | src/pages/Admin.tsx:245-253 | saving succeeds exactly when the trimmed name is non-empty, the slots hold exactly 4 different labels, and all are official; on success name, description, strengths and weaknesses are trimmed, the type is the one chosen in the form, and slot k holds the k-th label with its mapped type |
| Admin.EditedCareer | src/pages/Admin.tsx:252-253 | the stored career has the trimmed name, description, strengths and weaknesses, the chosen type, and each label paired with its mapped type, in order |
| Admin.SavedCareerLabels | src/pages/Admin.tsx:252 | a saved career's labels are the edited slots, in order |
| Admin.FourDifferentOfficialLabels | src/pages/Admin.tsx:247-250 | a career with four slots, four different labels and official labels passes the official-labels and no-duplicates catalogue rules |
| Admin.SavedCareerPassesSlotRules | src/pages/Admin.tsx:245-253 | a saved four-slot career passes the official-labels and no-duplicates catalogue rules |
| Admin.ApplyCareerEdit | src/pages/Admin.tsx:253-289 | a rejected edit leaves the store unchanged; an accepted one replaces only the edited position |
| Admin.ProfileEditProblem | src/pages/Admin.tsx:434-436 | no problem exactly when the trimmed name is non-empty, no subdivision is blank and the raw entries hold exactly 10 different strings; a blank name is reported first |
| Admin.EditedProfile | src/pages/Admin.tsx:437 | type, icon and careers are copied from the previous profile; name and description are trimmed; the colour is kept raw; each subdivision is trimmed and upper-cased in place |
| Admin.SaveProfileEdit | src/pages/Admin.tsx:433-437 | saving succeeds exactly under those three conditions, and a rejection reports the first failing one; the saved profile keeps type, icon and careers, has the trimmed name and description and the raw colour, and each subdivision trimmed and upper-cased in place |
| Admin.CaseVariantEditAccepted | src/pages/Admin.tsx:434-437 | ten raw subdivisions that differ only in letter case pass the uniqueness check |
| Admin.ProfileEditMayStoreDuplicates | src/pages/Admin.tsx:436-437 | because uniqueness is checked before normalisation, a saved profile can hold the same subdivision twice |
| Admin.ApplyProfileEdit | src/pages/Admin.tsx:437 | a rejected edit leaves the store unchanged; an accepted one replaces only the edited type's profile |
| Admin.FilterQuestionsExact | src/pages/Admin.tsx:95-99 | a question is listed exactly when it matches the search and the pair filter, as often as in the bank; the list is a subsequence of the bank, so bank order is kept; an empty search with "all" lists everything |
| Admin.PairFilterSelectsOrientation | src/pages/Admin.tsx:89-97 | the pair filter "X-Y" with an empty search selects exactly the questions with yesType X and noType Y |
| Admin.FilterQuestions | src/pages/Admin.tsx:95-99 | the list is no longer than the bank; every listed question is in the bank and passes both filters, and every question of the bank that passes them is listed |
| Admin.FilterCareersExact | src/pages/Admin.tsx:231-235 | a career is listed exactly when its name matches the search and its type the filter; the list is a subsequence of the catalogue; an empty search with "all" lists everything |
| Admin.FilterCareers | src/pages/Admin.tsx:231-235 | the list is no longer than the catalogue; every listed career is in it and passes both filters, and every career that passes them is listed |
| Admin.PairCounts | src/pages/Admin.tsx:559-560 | a key `X × Y` is present exactly when some question has yes-type X and no-type Y, and every present count is at least 1 |
| Admin.PairCountsPerKey | src/pages/Admin.tsx:559-560 | the count under `X × Y` (0 when absent) is the number of questions with yes-type X and no-type Y |
| Admin.CareerTypeCounts | src/pages/Admin.tsx:562-563 | a type letter is a key exactly when some career has that type, and every present count is at least 1 |
| Admin.QuestionSubtypeKeys | src/pages/Admin.tsx:421-422 | each question contributes two keys: key 2i is question i's yes-side key and key 2i+1 its no-side key |
| Admin.QuestionSubtypeKeysFrom | src/pages/Admin.tsx:421-422 | a string is among the keys exactly when it is the yes-side or no-side key of some question |
| Admin.QuestionSubtypeKeysMultiplicity | src/pages/Admin.tsx:421-422 | a key occurs once per question whose yes side has it plus once per question whose no side has it |
| Admin.QuestionSubtypeCounts | src/pages/Admin.tsx:421-422 | a key is present exactly when it is a side key of some question, and every present count is at least 1 |
| Admin.QuestionSubtypeCountsPerKey | src/pages/Admin.tsx:421-422 | each key's count (0 when absent) is the number of questions with it on the yes side plus the number with it on the no side |
| Admin.CareerSlotLabels | src/pages/Admin.tsx:424-425 | one key per related-subtype slot, and a string is a key exactly when it is a label of some career |
| Admin.CareerSlotLabelsAppend | src/pages/Admin.tsx:424-425 | the keys of two catalogues put together are the keys of the first followed by those of the second |
| Admin.CareerSlotLabelsMultiplicity | src/pages/Admin.tsx:424-425 | a label occurs among the keys as often, summed over the careers, as each career lists it |
| Admin.CareerSubtypeCounts | src/pages/Admin.tsx:424-425 | a label is present exactly when some career lists it, and every present count is at least 1 |
| Admin.CareerSubtypeCountsPerLabel | src/pages/Admin.tsx:424-425 | each label's count (0 when absent) is the number of times, summed over the careers, that it is listed |
| Admin.CountTablesTotals | src/pages/Admin.tsx:421-563 | the pair table sums to the number of questions, the type table to the number of careers, the question-subtype table to twice the number of questions, and the career-subtype table to the number of slots (4 per career when every career has four) |
| Admin.CareersForType | src/pages/Admin.tsx:459 | a type card's career count is the number of careers of that type, at most the catalogue size |
| Admin.QuestionsForType | src/pages/Admin.tsx:458 | a type card's question count is at most the bank size; it is zero exactly when no question has the type on either side; it equals the yes-side count plus the no-side count minus the questions with the type on both sides |
| Admin.CareersForTypeInTable | src/pages/Admin.tsx:459-563 | a type card's career count equals that type's entry in the career type table |
| Admin.QuestionsForTypeBySide | src/pages/Admin.tsx:458 | when no question sets a type against itself, a type card's question count is its yes-side count plus its no-side count |
| SubtypeModal.TotalIgnoresOtherLabels | src/components/SubtypeModal.tsx:20-21 | the total depends only on the counts of the profile's own subdivisions |
| SubtypeModal.Chips | src/components/SubtypeModal.tsx:60-78 | one chip per subdivision, in order, with its count (missing counts as 0), lit exactly when the count is positive |
| SubtypeModal.LitChipsAndTotal | src/components/SubtypeModal.tsx:21-78 | with non-negative counts the total is at least the number of lit chips, and it is zero exactly when no chip is lit |
| SubtypeModal.Badge | src/components/SubtypeModal.tsx:45 | the badge has at least two characters: a single digit gets one leading '0', and larger totals are plain decimal |
| SubtypeModal.BadgeReadsBack | src/components/SubtypeModal.tsx:45 | the badge is all digits and reads back as the total |
| SubtypeModal.BadgeExamples | src/components/SubtypeModal.tsx:45 | 7 is shown as "07" and 12 as "12" |
| SubtypeModal.View | src/components/SubtypeModal.tsx:17-78 | nothing is shown exactly when no type is selected; otherwise the profile's name, its total, one chip per subdivision with its count and lit state, and the zero-padded badge, which reads back as a non-negative total |
| QuizScreen.HandleAnswer | src/components/QuizScreen.tsx:22-34 | the value is stored under the current question's id, overwriting it, and every other answer is unchanged; the quiz advances by one exactly when this is not the last question, and otherwise completes with the updated answers |
| QuizScreen.HandlePrev | src/components/QuizScreen.tsx:36-42 | at the first question back leaves the quiz; otherwise it steps back one with the answers unchanged; it never completes |
| QuizScreen.AnswerThenBack | src/components/QuizScreen.tsx:22-42 | answering a non-last question and going back returns to it with the new answer kept |
| QuizScreen.Run | src/components/QuizScreen.tsx:15-37 | the index stays within the question list along any sequence of clicks |
| QuizScreen.AnswerRestCompletes | src/components/QuizScreen.tsx:22-34 | answering every remaining question, one value each, completes the quiz; the answers handed over are the earlier ones with each remaining question's id set to its value, in question order |
| QuizScreen.AnswerAllCompletes | src/components/QuizScreen.tsx:14-34 | answering each question once from the start completes the quiz with exactly those answers |
| IndexPage.HandleStart | src/pages/Index.tsx:12 | start shows the quiz and keeps the answers |
| IndexPage.HandleComplete | src/pages/Index.tsx:14-17 | completing shows the results for exactly the completed answers |
| IndexPage.HandleRestart | src/pages/Index.tsx:19-22 | restart returns to the initial landing page with no answers |
| IndexPage.HandleQuizBack | src/pages/Index.tsx:27 | back from the quiz shows the landing page with the answers untouched |
| IndexPage.Step | src/pages/Index.tsx:12-27 | start leads to the quiz, completion to the results, restart and back to the landing screen; completion keeps exactly its answers, restart none, start and back the previous ones |
| IndexPage.RunKeepsNoStaleAnswers | src/pages/Index.tsx:9-28 | along any run of clicks, the landing and quiz screens never hold answers |
| IndexPage.ResultsShowLastCompletion | src/pages/Index.tsx:14-28 | a completion can happen exactly on the quiz screen, and the results then show exactly its answers |
| Text.Trim | src/components/ImportCareersModal.tsx:53-60 | the result is the input with leading and trailing white space removed: a slice whose outside is white space and whose ends are not; empty exactly when the input is all white space |
| Text.ToUpper | src/components/ImportCareersModal.tsx:55-58 | same length, each character upper-cased |
| Text.ToLower | src/pages/Admin.tsx:96 | same length, each character lower-cased |
| Text.Contains | src/pages/Admin.tsx:96 | `includes` holds exactly when the part occurs in the string at some position |
| Text.DecimalInt | src/pages/Admin.tsx:96 | the rendering of an integer starts with "-" exactly for negatives, and its digits read back as the absolute value |
| Text.Decimal | src/components/SubtypeModal.tsx:45 | the rendering of a natural number is a non-empty string of digits, with a leading 0 only for 0 itself |
| Text.DecimalRoundTrip | src/components/SubtypeModal.tsx:45 | the decimal rendering of a natural number reads back as that number |
| Text.PadStart | src/components/SubtypeModal.tsx:45 | the result is max(width, length) long and ends with the input, preceded only by the fill character |
| Text.Join | src/components/ImportCareersModal.tsx:78 | joining no parts gives ""; otherwise the result begins with the first part and its length is the parts' total length plus one separator between each pair of neighbours |
| Text.JoinSnoc | src/components/ImportCareersModal.tsx:44 | joining one more part appends the separator and that part, so the join reads left to right as ECMAScript defines it |
| Sorting.Sort | src/components/CareersTab.tsx:52-59 | the sorted sequence is a permutation of the input |
| Sorting.SortSorted | src/components/ResultsScreen.tsx:64-66 | sorting by a strict total order on distinct elements yields a sequence sorted by it |
| Seqs.Histogram | src/pages/Admin.tsx:559-563 | a key is present exactly when it occurs in the list, and its count is its number of occurrences, at least 1 |
| Seqs.FilterIsSubsequence | src/pages/Admin.tsx:95-99 | filtering keeps the chosen elements in their original order |
| Seqs.Filter | src/pages/Admin.tsx:95-99 | the result is no longer than the input, holds only elements of it meeting the condition, and holds every element that meets it |
| Seqs.FirstIndex | src/pages/Admin.tsx:144 | `findIndex`: the position found holds a match and no earlier position does; nothing is found exactly when no element matches |
| Seqs.Elements | src/pages/Admin.tsx:247 | `new Set(s)` holds exactly the elements of s |
| Seqs.ElementsSize | src/pages/Admin.tsx:436 | the set's `size` is at most the length, with equality exactly when no element occurs twice |

## Left out

- Persistence: `localStorage`, `sessionStorage` and JSON parsing (`useAdminData.ts`, `Admin.tsx`) are I/O. `load` is modelled with the stored text and the decoder as parameters.
- Spreadsheet decoding: `XLSX` and `FileReader` are I/O. The import model starts from a sequence of rows, each a map from column name to cell text. The `catch` branch of `parseFile` is also left out.
- Randomness: the distribution of `Math.random` is not modelled. Only where the choices land is modelled.
- Floating point: the progress percentage, bar widths and HSL colours are display values.
- Timing: the `setTimeout` auto-advance delay is modelled as an immediate transition, so clicks during the 300 ms window are not modelled.
- Rendering: JSX, charts, icons, the career modal, the landing screen, toasts and sharing are not modelled.
- The admin password gate is authentication plumbing, not scoring logic.
- Unicode case mapping: `toUpperCase` and `toLowerCase` are modelled on ASCII and Latin-1 letters only, without the special cases ß, ÿ and µ.
- The 600-career catalogue test is not proved against the compiled 30-career catalogue. Its rules are kept as predicates on any catalogue.
- The compiled profile table does not satisfy the ten-subdivision or partition conventions. Nothing is proved that assumes them.
- The highlighted earlier answer on the quiz screen (`selectedValue`) is display only.
