# pathfinder-holland: the scoring and recommendation core, in Dafny

pathfinder-holland is a career-orientation web application for students.

## The quiz

A student works through a five-step Holland (RIASEC) quiz:
1. They enter a name and a class.
2. They tick the statements that fit them, one group of ten statements per Holland category.
3. They choose exam blocks (subject combinations).
4. They enter current and target marks for the subjects of those blocks.
5. They read a result:
   - the three leading Holland types;
   - the majors that share a block with the selection and a type with those three;
   - an advice line per subject.

## The administrator's side

An administrator sees the stored results:
- as a printable card per student;
- in a table of all students.

The administrator edits three catalogs:
- the majors;
- the Holland questions;
- the exam blocks.

A separate utility, `processTopGroups`, ranks six scores with a stricter rule:
- equal scores form buckets;
- a top bucket of four or more gives no result;
- buckets are taken whole while at most three types are included.

## What is modelled

| Dafny module (file) | models |
|---|---|
| `TopGroupsRule` (process_top_groups.dfy) | `processTopGroups` as the imperative method it is, with nested loops and a hand-advanced index. It is proved equal to a specification function, and the rule's properties are proved about that function. |
| `HollandTest` (holland_test.dfy) | The quiz page. It covers the answer tally, the literal top-three slice, the major filter, the block toggle and the subject extraction from block names. It also covers the score rows and the catalog-derived group order. The page state is the class `Wizard`, one method per handler. |
| `TestData` (test_data.dfy) | The catalog: 30 majors, 20 exam blocks with their derived `majors` lists, 60 questions and the six type descriptions. |
| `ScoreAdvice` (score_advice.dfy) | The three-way gap rule used by both result views. |
| `ResultStep` (result_step.dfy) | The student's printable card, with its own top-three copy, its defaults, its group label and its score badge. |
| `StudentResults` (student_results.dfy) | The administrator's table: `getTopHollandTypes`, the Holland badges of a row and the shortened majors list. |
| `AdminMajors`, `AdminQuestions`, `AdminExamBlocks` | The three admin dialogs, each as a class over its form state. They cover the checkbox lists, the type filter and its counts, the required-field rules, the id fallback, and the comma-separated subject list. |
| `CrossCopies` (cross_copies.dfy) | How the four top-three computations relate. |
| `JsArray`, `JsString`, `Wrappers` | The JavaScript built-ins the code relies on, modelled once:<br>- `sort` with a `b - a` comparator is a stable descending sort;<br>- `filter`, `find`, `slice`, `map` and the insertion-ordered `Set`;<br>- `toUpperCase`, `trim`, `split`, `join`, `parseInt` and `toString`. |

## Notes on the code

- **The quiz does not use the bucket rule.** Nothing in the application calls `processTopGroups`. Three places take the first three of the sorted entries, with no rule for ties: the quiz (`src/pages/HollandTest.tsx:126-129`), the printable card (`src/pages/Admin/ResultStep.tsx:49-52`) and the administrator's table (`src/pages/Admin/StudentResults.tsx:117-122`).
  - `CrossCopies` proves that, with no tied scores, all four copies give the same list.
  - It gives a concrete input where they differ.
- **A skipped bucket does not stop the walk.** The loop at `src/utils/processTopGroups.ts:29-36` skips a bucket that does not fit and goes on to the next one; the else branch at line 34 is empty. So R:9, I=A=S:5, E:1, C:0 gives R, E, C (`TopGroupsRule.SkippedBucketDoesNotStopTheWalk`).
- **Tied types keep the order of the input.** The sort at `src/utils/processTopGroups.ts:7` is stable, so within a bucket types keep the order of the score object's keys (`JsArray.SortDescStable`, `TopGroupsRule.BucketsTies`).
- **Any keys are accepted.** The rule upper-cases whatever keys the score object has (`src/utils/processTopGroups.ts:6`); it does not check for the six categories.
- **Block names.** The 20 entries of `testBlocks` (`src/data/testData.ts:260-361`) are written in the model as rows of an id and three subjects, and each name is rendered from its row as `Khối <id> (<s1>, <s2>, <s3>)` (`TestData.BlockName`).

## Model

| member | source | states |
|---|---|---|
| TopGroupsRule.Normalize | src/utils/processTopGroups.ts:5-6 | Each entry keeps its position and score; its key is upper-cased. |
| TopGroupsRule.NormalizeUpper | src/utils/processTopGroups.ts:6 | Entries whose keys are already upper case are left unchanged. |
| TopGroupsRule.GroupByScore | src/utils/processTopGroups.ts:10-19 | The nested loops over the sorted entries build exactly the buckets of consecutive equal scores. |
| TopGroupsRule.SelectBuckets | src/utils/processTopGroups.ts:22-39 | The degenerate check and the walk give [] for no buckets or a degenerate top bucket; otherwise they give the greedy whole-bucket inclusion from an empty list. |
| TopGroupsRule.ProcessTopGroups | src/utils/processTopGroups.ts:4-42 | The function returns the specified top groups, and never more than three. |
| TopGroupsRule.IncludeAtMostThree | src/utils/processTopGroups.ts:29-32 | Starting from at most three included entries, the walk ends with at most three. |
| TopGroupsRule.TopGroupsAtMostThree | src/utils/processTopGroups.ts:29-32 | The result never has more than three entries. |
| TopGroupsRule.BucketsMembers | src/utils/processTopGroups.ts:11-19 | Reading the buckets back in order, each type with its bucket's score, gives back the sorted entries. |
| TopGroupsRule.BucketsNonEmpty | src/utils/processTopGroups.ts:11-19 | No bucket is empty. |
| TopGroupsRule.BucketsPartition | src/utils/processTopGroups.ts:11-19 | The buckets partition the sorted entries into non-empty runs. |
| TopGroupsRule.BucketsSorted | src/utils/processTopGroups.ts:11-19 | On sorted entries the bucket scores strictly decrease, and the first bucket carries the first score. |
| TopGroupsRule.BucketsTies | src/utils/processTopGroups.ts:11-19 | On sorted entries each bucket holds exactly the keys of every entry with its score, in order. |
| TopGroupsRule.IncludeOrdered | src/utils/processTopGroups.ts:29-36 | Over buckets of decreasing score, the walk keeps the included scores non-increasing. |
| TopGroupsRule.IncludeAtomic | src/utils/processTopGroups.ts:30-35 | During the walk every bucket ends up wholly included or wholly absent. |
| TopGroupsRule.TopGroupsOrdered | src/utils/processTopGroups.ts:29-36 | Result scores never increase. |
| TopGroupsRule.TopGroupsAtomic | src/utils/processTopGroups.ts:30-35 | Each bucket of the input's sorted entries is wholly in the result or wholly out of it. |
| TopGroupsRule.NormalizeTies | src/utils/processTopGroups.ts:6 | Upper-casing keeps the number of entries with any given score. |
| TopGroupsRule.TopGroupsFromInput | src/utils/processTopGroups.ts:5-7 | Every result item is some input key, upper-cased, paired with that entry's score. |
| TopGroupsRule.SortedHeadIsTop | src/utils/processTopGroups.ts:7 | When m is the highest input score, the sorted list starts with an entry of score m. |
| TopGroupsRule.TopBucketIsTies | src/utils/processTopGroups.ts:24 | The first bucket is the score m with every upper-cased key that scores m, in input order. |
| TopGroupsRule.RuleOnTopBucket | src/utils/processTopGroups.ts:25-33 | On buckets, the result is empty exactly when the top bucket has four or more types. A top bucket of one to three types heads the result. |
| TopGroupsRule.TopGroupsTopBucket | src/utils/processTopGroups.ts:24-33 | The result is empty exactly when four or more inputs share the maximum m. Otherwise it begins with all of them, in input order, so its first score is m. |
| TopGroupsRule.TopGroupsAllEqual | src/utils/processTopGroups.ts:25-26 | Four or more entries, all with one score (six zeros, say), give []. |
| TopGroupsRule.BucketsOfSkipShape | src/utils/processTopGroups.ts:11-19 | Scores with a single top entry, a three-way tie, then two single lower entries form those four buckets. |
| TopGroupsRule.WalkOfSkipShape | src/utils/processTopGroups.ts:29-36 | On those four buckets the walk takes the first, skips the three-way tie and takes the last two. |
| TopGroupsRule.SkipShapeTopGroups | src/utils/processTopGroups.ts:22-39 | For every upper-case input of that shape, the result is the top entry followed by the two lowest. |
| TopGroupsRule.SkippedBucketDoesNotStopTheWalk | src/utils/processTopGroups.ts:29-36 | R:9, I=A=S:5, E:1, C:0 gives [R:9, E:1, C:0]. |
| TopGroupsRule.TopGroupsOfNothing | src/utils/processTopGroups.ts:5 | A missing or empty score object gives []. |
| HollandTest.Inc | src/pages/HollandTest.tsx:121 | The named counter goes up by one and the other five are unchanged. |
| HollandTest.TallyEntries | src/pages/HollandTest.tsx:115 | The counters as six entries in key order R, I, A, S, E, C, each carrying its own category's counter. |
| HollandTest.GetTallyOf | src/pages/HollandTest.tsx:117-124 | Each counter equals the number of ticked answers whose id names a question of that category. |
| HollandTest.CountAnswers | src/pages/HollandTest.tsx:115-124 | The loop over the answers, in any key order, produces exactly that tally. |
| HollandTest.KeyOfId | src/pages/HollandTest.tsx:119 | `parseInt` of an answer's key, which is its id's decimal text, finds the question with that id. |
| HollandTest.TallyStep | src/pages/HollandTest.tsx:118-122 | Handling one answer moves the counters from the counts of the answers seen so far to the counts that include it. |
| HollandTest.TallyOfNothing | src/pages/HollandTest.tsx:115 | No answers give six zero counters. |
| HollandTest.TallyTick | src/pages/HollandTest.tsx:118-122 | Ticking a new catalog question adds exactly one to its category and nothing to the others. |
| HollandTest.TickCounted | src/pages/HollandTest.tsx:118-122 | Ticking a new question grows the counted set of its own category by one and leaves the others unchanged. |
| HollandTest.ScoredIsUnion | src/pages/HollandTest.tsx:117-124 | An answer scores exactly when it is ticked and names a question of some category. |
| HollandTest.CountedDisjoint | src/pages/HollandTest.tsx:119-121 | No answer counts for two categories. |
| HollandTest.TallySum | src/pages/HollandTest.tsx:115-124 | The six counters add up to the number of ticked answers that name a question. Unticked answers and unknown ids add nothing. |
| HollandTest.ScoredUnion | src/pages/HollandTest.tsx:117-124 | The scored answers are the union of the six categories' counted sets. |
| HollandTest.Range | src/data/testData.ts:371-441 | The integers lo to hi-1, hi-lo of them. |
| HollandTest.IdsOfCat | src/data/testData.ts:371-441 | An id 1..60 has category c exactly when it lies in c's range of ten. |
| HollandTest.TallyAtMostTen | src/pages/HollandTest.tsx:117-124 | With the catalog numbered in tens, no counter exceeds ten. |
| HollandTest.TickedMember | src/pages/HollandTest.tsx:117-124 | When exactly a category's ids are ticked, an id counts for it exactly when it lies in that category's range. |
| HollandTest.AllTicked | src/pages/HollandTest.tsx:117-124 | Ticking exactly a category's ten ids makes its counted set those ten ids. |
| HollandTest.TallyCanReachTen | src/pages/HollandTest.tsx:117-124 | Ticking every statement of a category brings its counter to ten. |
| HollandTest.TopEntries | src/pages/HollandTest.tsx:126-128 | Always exactly three entries: the first three of the stable descending sort of the counters. |
| HollandTest.SortedTypes | src/pages/HollandTest.tsx:126-129 | Three `{type, score}` records, one per top entry, in order. |
| HollandTest.UserTypes | src/pages/HollandTest.tsx:131 | The three types of the top entries, in order. |
| HollandTest.ReorderedCounters | src/pages/HollandTest.tsx:126-127 | Any reordering of counter entries still pairs each category with its own counter. |
| HollandTest.TopOfCounters | src/pages/HollandTest.tsx:126-129 | The first three of a sort of counter entries carry their categories' counters, in non-increasing order. |
| HollandTest.TopThreeOrdered | src/pages/HollandTest.tsx:126-129 | Each top record's score is its category's counter, and scores never increase. |
| HollandTest.CounterEntry | src/pages/HollandTest.tsx:126 | Every category appears among the counter entries with its counter. |
| HollandTest.TopOfCountersBeatsRest | src/pages/HollandTest.tsx:126-131 | In a sort of counter entries, a category in the top three scores at least as much as one outside it. |
| HollandTest.TopThreeBeatsTheRest | src/pages/HollandTest.tsx:126-131 | Every category the quiz takes as a user type scores at least as much as every category it leaves out. |
| HollandTest.TopThreeTiesInKeyOrder | src/pages/HollandTest.tsx:126-128 | Among equal counters the top three keeps the R, I, A, S, E, C key order. |
| HollandTest.EqualCountersSorted | src/pages/HollandTest.tsx:126-127 | Six equal counters are already in sorted order. |
| HollandTest.TopOfUnsorted | src/pages/HollandTest.tsx:126-128 | When the sort leaves the counters in place, the top three are the first three keys. |
| HollandTest.FirstThreeKeys | src/pages/HollandTest.tsx:115 | The first three counter entries are R, I and A. |
| HollandTest.EqualCountersGiveRIA | src/pages/HollandTest.tsx:126-129 | There is no degenerate rule: six equal counters, all zero say, still give R, I, A. |
| HollandTest.CompatibleExactly | src/pages/HollandTest.tsx:134-138 | A major is recommended exactly when it shares a block with the selection and a type with the top three. The table order is kept. |
| HollandTest.UntypedMajorNeverRecommended | src/pages/HollandTest.tsx:136 | A major that lists no Holland type is never recommended. |
| HollandTest.NoBlocksNoMajors | src/pages/HollandTest.tsx:135 | With no block selected nothing is recommended. |
| HollandTest.ToggleEffect | src/pages/HollandTest.tsx:70-76 | A selected block is removed, with the others kept in order. An unselected block is appended at the end. Other blocks are unaffected. |
| HollandTest.FilterKeepsDistinct | src/pages/HollandTest.tsx:73 | Filtering a duplicate-free selection keeps it duplicate-free. |
| HollandTest.ToggleTwice | src/pages/HollandTest.tsx:70-76 | Toggling keeps the selection duplicate-free. Toggling a new block twice restores the list; otherwise the set of blocks is restored. |
| HollandTest.CloseFrom | src/pages/HollandTest.tsx:93 | The first `)` at or after a position, or none when there is none. |
| HollandTest.MatchFrom | src/pages/HollandTest.tsx:93 | A `(` followed by a non-empty run of non-`)` characters and a `)`, as `/\(([^)]+)\)/` matches. |
| HollandTest.MatchSkips | src/pages/HollandTest.tsx:93 | The match search passes over text without a `(`. |
| HollandTest.MatchOfShape | src/pages/HollandTest.tsx:93 | On text with one `(`, then a non-empty list without `)`, then `)`, the match is exactly that list. |
| HollandTest.CloseFromReaches | src/pages/HollandTest.tsx:93 | The search for `)` finds the first one. |
| HollandTest.SubjectsOfBlockName | src/pages/HollandTest.tsx:93 | Reading the subjects out of `Khối <id> (<s1>, <s2>, ...)` gives back s1, s2, .... |
| HollandTest.JoinPlain | src/pages/HollandTest.tsx:93 | A non-empty list of plain subjects joins to non-empty text without parentheses. |
| HollandTest.BlockAtSubjects | src/pages/HollandTest.tsx:89-93 | For a block at any position whose id no earlier block has, whose id has no `(` and whose name lists plain subjects, the lookup by its id yields exactly those subjects. |
| HollandTest.CatalogBlockSubjects | src/pages/HollandTest.tsx:89-93 | For every block of the catalog, the lookup by its id yields exactly the subjects of its row, in order. |
| HollandTest.FirstBlockSubjects | src/pages/HollandTest.tsx:89-93 | Block A00 of the catalog yields Toán, Lý, Hóa. |
| HollandTest.UnknownBlockHasNoSubjects | src/pages/HollandTest.tsx:89-96 | An id no block has contributes no subjects. |
| HollandTest.CatalogSubjectsOfId | src/pages/HollandTest.tsx:89-96 | With the catalog, a subject comes from an id exactly when the block with that id lists it. |
| HollandTest.CatalogSubjectsOfBlocks | src/pages/HollandTest.tsx:89-102 | With the catalog, the collected subjects have no duplicates, and a subject is collected exactly when some selected id names a block that lists it. |
| HollandTest.CatalogScoreRows | src/pages/HollandTest.tsx:89-104 | With the catalog, the rows that "next" builds are zeroed and never repeat a subject. There is a row for a subject exactly when some selected block lists it. |
| HollandTest.AddSubjects | src/pages/HollandTest.tsx:94 | Adding the subjects one at a time is adding the rest of the list. |
| HollandTest.CollectSubjects | src/pages/HollandTest.tsx:89-96 | The loops fill the set with exactly the distinct subjects of the selected blocks, first seen first. |
| HollandTest.SubjectsOfBlocksFacts | src/pages/HollandTest.tsx:89-98 | The collected subjects keep what was there in front, repeat nothing, and are exactly the earlier items plus the subjects of the named blocks. |
| HollandTest.InitialScores | src/pages/HollandTest.tsx:98-102 | One row per subject, in order, with both marks 0. |
| HollandTest.ChangedScores | src/pages/HollandTest.tsx:108-112 | Only the named field of the row at `index` takes the value; the length, other rows and the other field are kept. |
| HollandTest.ScoreChangeLastWins | src/pages/HollandTest.tsx:108-112 | Of two edits of one field of the same row the later wins. An index outside the rows changes nothing. |
| HollandTest.TypesOfTen | src/data/testData.ts:371-441 | A group of ten questions of one category has ten types, all that category. |
| HollandTest.AddGroup | src/pages/HollandTest.tsx:167-175 | A run of one new category adds that category once to the key order. |
| HollandTest.AddSixRuns | src/pages/HollandTest.tsx:167-175 | Six runs, of R, S, I, A, E and C in turn, give the key order R, S, I, A, E, C. |
| HollandTest.GroupTypesOfSix | src/pages/HollandTest.tsx:167-175 | Six groups of ten in that order give the groups in that order. |
| HollandTest.QuizGroupOrder | src/pages/HollandTest.tsx:167-177 | The quiz shows the catalog's groups in the order R, S, I, A, E, C, each with its ten statements. |
| HollandTest.ShownMajors | src/pages/HollandTest.tsx:484 | At most five recommended majors are shown, a prefix of the list, and five when there are that many. |
| HollandTest.RecommendedMajorsShowABlock | src/pages/HollandTest.tsx:489 | Every recommended major shows at least one block badge, and only blocks it lists that were selected. |
| HollandTest.BadgeAsWrittenOverflows | src/pages/HollandTest.tsx:473 | Ticking the ten Realistic statements gives a score above the badge's denominator of 4. |
| HollandTest.BadgeWithinDenominator | src/pages/HollandTest.tsx:473 | With a denominator of 10 every reachable score is within it, and a full category reaches it. |
| HollandTest.Wizard.constructor | src/pages/HollandTest.tsx:43-49 | The page opens on the personal step with empty fields, no answers, no blocks, rows or result, and group 0. It uses the catalog and the group order R, S, I, A, E, C. |
| HollandTest.Wizard.SetName | src/pages/HollandTest.tsx:211 | Typing sets the name and nothing else. |
| HollandTest.Wizard.SetClass | src/pages/HollandTest.tsx:221 | Typing sets the class and nothing else. |
| HollandTest.Wizard.PersonalInfoNext | src/pages/HollandTest.tsx:51-61 | Accepted exactly when neither name nor class is blank after trimming. If accepted, the quiz step opens; if refused, the step is unchanged. |
| HollandTest.Wizard.AnswerChange | src/pages/HollandTest.tsx:63-68 | Only the given answer is set. |
| HollandTest.Wizard.ClickQuestion | src/pages/HollandTest.tsx:266 | A click flips the statement's answer; one never answered becomes ticked. |
| HollandTest.Wizard.BlockToggle | src/pages/HollandTest.tsx:70-76 | The selection becomes its toggle, and stays duplicate-free. |
| HollandTest.Wizard.BlockSelectionNext | src/pages/HollandTest.tsx:78-106 | With no block nothing changes. Otherwise the rows become the zeroed subjects of the blocks and the marks step opens. |
| HollandTest.Wizard.ScoreChange | src/pages/HollandTest.tsx:108-112 | The rows become the edited rows. |
| HollandTest.Wizard.CalculateResults | src/pages/HollandTest.tsx:114-148 | The result of the answers, the blocks and the rows is stored, and the result step opens. |
| HollandTest.Wizard.ResetTest | src/pages/HollandTest.tsx:156-163 | Every field returns to its initial value except the group index, which is not in its frame. |
| HollandTest.Wizard.Restart | src/pages/HollandTest.tsx:156-163 | The corrected reset: every field returns to its initial value, the group index included. |
| HollandTest.Wizard.NextGroup | src/pages/HollandTest.tsx:179-185 | The next group; after the last, the block step. The index stays within 0..5. |
| HollandTest.Wizard.PrevGroup | src/pages/HollandTest.tsx:187-191 | The previous group; at the first group nothing changes. |
| HollandTest.Wizard.BackToTest | src/pages/HollandTest.tsx:348 | The quiz step reopens. |
| HollandTest.Wizard.BackToBlocks | src/pages/HollandTest.tsx:424 | The block step reopens. |
| HollandTest.ResetKeepsGroupIndex | src/pages/HollandTest.tsx:156-163 | For any name and class that are not blank and any block: signing in, going through the six groups, picking the block, submitting and resetting reopens the personal step with the group index still at the last group. |
| HollandTest.RestartOpensFirstGroup | src/pages/HollandTest.tsx:156-163 | The same walk with the corrected reset reopens the personal step with the group index at the first group. |
| HollandTest.WalkToResult | src/pages/HollandTest.tsx:51-148 | Signing in with a name and class that are not blank, pressing "next" on six groups, picking one block and submitting reaches the result step at the last group. |
| HollandTest.Open | src/pages/HollandTest.tsx:43-49 | A new page is on the personal step, at group 0, with no blocks selected. |
| HollandTest.SignIn | src/pages/HollandTest.tsx:51-61 | After typing a name and class that are not blank and pressing "next", the quiz opens at group 0. |
| HollandTest.FinishQuiz | src/pages/HollandTest.tsx:179-185 | Six presses of "next" from group 0 open the block step at group 5, with the selection unchanged. |
| HollandTest.PickBlock | src/pages/HollandTest.tsx:70-106 | Toggling one block on an empty selection and pressing "next" opens the marks step with that block selected. |
| HollandTest.Submit | src/pages/HollandTest.tsx:114-148 | Submitting opens the result step and leaves the group index alone. |
| TestData.CatName | src/data/testData.ts:518-548 | Each category's key is one letter. |
| TestData.CatNameInjective | src/data/testData.ts:518-548 | Distinct categories have distinct keys. |
| TestData.GroupsAreTens | src/data/testData.ts:371-441 | The six groups hold ids 1-10, 11-20, ..., 51-60, one category each, in the order R, S, I, A, E, C. |
| TestData.QuestionTable | src/data/testData.ts:370-442 | There are 60 questions. Question k has id k+1, and its category is that of its range of ten. |
| TestData.QuestionIdsUnique | src/data/testData.ts:370-442 | The ids are 1..60, and no id occurs twice. |
| TestData.FindQuestionById | src/data/testData.ts:370-442 | Looking up an id finds a question exactly for 1..60: the id's own question, of the category of its range. |
| TestData.CatalogNumberedByTens | src/data/testData.ts:370-442 | The question table is numbered by tens. |
| TestData.OfCatTen | src/data/testData.ts:371-441 | The questions of a category, within a group of ten, are the whole group or none. |
| TestData.OfCatConcat | src/data/testData.ts:370-442 | Selecting by category distributes over the six groups. |
| TestData.OfCatSix | src/data/testData.ts:370-442 | Over six groups of ten, a category's questions are exactly its own group. |
| TestData.TenPerCategory | src/data/testData.ts:370-442 | Each category has exactly its ten questions. |
| TestData.NamingBlockExactly | src/data/testData.ts:260-361 | The majors that name a block are exactly those catalog majors listing it, in catalog order. |
| TestData.BlockMajorsExactly | src/data/testData.ts:260-361 | Each block's `majors` are exactly the catalog majors whose exam blocks include the block's id, in catalog order. |
| TestData.MajorsNameFewBlocks | src/data/testData.ts:17-258 | The majors name only nine blocks: A00, A01, B00, C00, D01, D04, H00, H01 and V00. |
| TestData.NamingNoBlock | src/data/testData.ts:260-361 | A block no major names has no majors. |
| TestData.UnnamedBlockListsNothing | src/data/testData.ts:260-361 | Any other block (C01, C03, R00 or V01, say) lists no majors. |
| TestData.UnnamedBlocks | src/data/testData.ts:260-361 | Twelve of the twenty blocks, at the listed positions, are named by no major. |
| TestData.FirstBlockName | src/data/testData.ts:262-265 | Block A00's name renders as the catalog writes it, `Khối A00 (Toán, Lý, Hóa)`. |
| TestData.BlockRowsShape | src/data/testData.ts:260-361 | Every block id is free of `(` and every block lists three subjects. |
| TestData.SubjectNamesPlain | src/data/testData.ts:260-361 | The thirteen subject names the blocks use are non-empty and contain no comma or parenthesis. |
| TestData.BlockRowsUseSubjectNames | src/data/testData.ts:260-361 | Every subject a block lists is one of those thirteen names. |
| TestData.BlockSubjectsPlain | src/data/testData.ts:260-361 | Every subject of every block is non-empty and contains no comma or parenthesis. |
| TestData.BlockIdsDistinct | src/data/testData.ts:260-361 | No two blocks share an id. |
| TestData.MajorWithoutTypes | src/data/testData.ts:226-233 | Major 27 lists no Holland type. |
| TestData.EveryTypeDescribed | src/data/testData.ts:518-548 | Every type has a description. |
| ScoreAdvice.AdviceFor | src/pages/HollandTest.tsx:513-531 | Exactly one of the three classes applies: the gap is positive, zero or negative. A positive gap is what must be added to the current mark to meet the target. |
| ScoreAdvice.AdvisedImprovementMeetsTarget | src/pages/HollandTest.tsx:514-528 | Improving by the advised amount meets the target. |
| ResultStep.TopThree | src/pages/Admin/ResultStep.tsx:49-52 | There are min(3, n) ranked types for n stored entries. |
| ResultStep.OrText | src/pages/Admin/ResultStep.tsx:92 | A missing or empty text shows the fallback; otherwise the text itself. |
| ResultStep.ScoreAdvices | src/pages/Admin/ResultStep.tsx:213-230 | One advice per score row, row by row, by the gap rule. |
| ResultStep.TopThreeRanked | src/pages/Admin/ResultStep.tsx:49-52 | There are min(3, n) items with non-increasing scores, each a stored pair. The first item carries the maximum. |
| ResultStep.MissingScoresRankNothing | src/pages/Admin/ResultStep.tsx:49-52 | A record without scores, or with an empty score object, ranks nothing, reads "cân bằng" and hides the Holland section. |
| ResultStep.TopThreeKeepsTieOrder | src/pages/Admin/ResultStep.tsx:51-52 | Types with equal scores keep the stored key order. |
| ResultStep.CardKeepsLists | src/pages/Admin/ResultStep.tsx:61-63 | Missing majors, blocks and score rows read as empty lists, and empty rows hide the score section. Present lists are carried over unchanged. |
| ResultStep.HeaderShowsFallbacks | src/pages/Admin/ResultStep.tsx:54-92 | The header copies name, class and number. University and major, never filled in, show their fallbacks. |
| ResultStep.TextSectionsFollowRecord | src/pages/Admin/ResultStep.tsx:146 | The analysis and advice sections appear exactly when the record holds a non-empty text for them. |
| ResultStep.JoinLetters | src/pages/Admin/ResultStep.tsx:98 | Joining one-letter strings without a separator spells the letters in order. |
| ResultStep.LabelSpellsTypes | src/pages/Admin/ResultStep.tsx:97-111 | "cân bằng" shows exactly when the Holland section is hidden. Otherwise the label spells the types' letters in rank order. |
| ResultStep.RecordLabel | src/pages/Admin/ResultStep.tsx:97-99 | A record reads "cân bằng" exactly when it has no score entries. |
| ResultStep.BadgeShowsScore | src/pages/Admin/ResultStep.tsx:136 | The badge reads back as the item's score and ends in "/10". |
| ResultStep.RecordAdvice | src/pages/Admin/ResultStep.tsx:209-230 | A record's score rows show the section, and each row's advice is the gap rule on that row. |
| StudentResults.GetTopHollandTypes | src/pages/Admin/StudentResults.tsx:117-122 | There are min(3, n) items for n entries. |
| StudentResults.RowBadges | src/pages/Admin/StudentResults.tsx:267-270 | The row's badges are all the stored entries, in key order. |
| StudentResults.TopRowBadges | src/pages/Admin/StudentResults.tsx:117-122 | The corrected row shows at most three badges. |
| StudentResults.ShownMajors | src/pages/Admin/StudentResults.tsx:292 | The names of the first two majors, or of all when there are fewer. |
| StudentResults.MoreBadge | src/pages/Admin/StudentResults.tsx:297-301 | The "+n" badge appears exactly when there are more than two majors. |
| StudentResults.TopHollandTypesRanked | src/pages/Admin/StudentResults.tsx:117-122 | There are min(3, n) items with non-increasing scores, each a stored (key, score) pair. The first carries the maximum. |
| StudentResults.TopHollandTypesDistinct | src/pages/Admin/StudentResults.tsx:118-121 | No key repeats among the top three. |
| StudentResults.BadgeNamesTypeAndScore | src/pages/Admin/StudentResults.tsx:285 | Each badge begins with its type and ": ", and the rest reads back as its score. |
| StudentResults.RowBadgesUnranked | src/pages/Admin/StudentResults.tsx:267-287 | A row of four entries shows four badges, and the first need not carry the largest score. |
| StudentResults.TopRowBadgesRanked | src/pages/Admin/StudentResults.tsx:117-122 | The corrected row shows at most three badges, largest first, in non-increasing order. |
| StudentResults.MajorBadgesCoverAll | src/pages/Admin/StudentResults.tsx:292-301 | The names shown plus n add up to the number of majors. There is a "+n" with n >= 1 only beside two names; otherwise every major is named. |
| AdminMajors.CheckboxChange | src/pages/Admin/Majors.tsx:119-135 | Checking adds one entry; unchecking never adds any. |
| AdminMajors.SaveRequest | src/pages/Admin/Majors.tsx:137-168 | Nothing is sent exactly when the name or description is empty. Otherwise the form is sent as an update when a major is being edited, and as a creation when not. |
| AdminMajors.MajorsPage.constructor | src/pages/Admin/Majors.tsx:40-48 | The dialog starts closed with an empty form. |
| AdminMajors.MajorsPage.OpenDialog | src/pages/Admin/Majors.tsx:84-105 | The form is filled from the major, or emptied for a new one, and the dialog opens. |
| AdminMajors.MajorsPage.CloseDialog | src/pages/Admin/Majors.tsx:107-117 | The dialog closes with an empty form and no major being edited. |
| AdminMajors.MajorsPage.ExamBlockChange | src/pages/Admin/Majors.tsx:119-126 | Only the exam-block list changes. |
| AdminMajors.MajorsPage.HollandTypeChange | src/pages/Admin/Majors.tsx:128-135 | Only the Holland-type list changes. |
| AdminMajors.MajorsPage.Save | src/pages/Admin/Majors.tsx:137-179 | The request that is sent. The dialog closes only when the request is sent and accepted; otherwise nothing changes. |
| AdminMajors.CheckAppends | src/pages/Admin/Majors.tsx:122-123 | Checking appends the id at the end, even when it is already there. |
| AdminMajors.UncheckRemovesAll | src/pages/Admin/Majors.tsx:124 | Unchecking removes every copy of the id and keeps each other entry, as often as it occurs and in order. |
| AdminMajors.CheckThenUncheck | src/pages/Admin/Majors.tsx:119-126 | Unchecking after checking removes the id altogether. |
| AdminMajors.UncheckIdempotent | src/pages/Admin/Majors.tsx:124 | Unchecking twice is unchecking once. |
| AdminMajors.SaveNeedsNameAndDescription | src/pages/Admin/Majors.tsx:138-145 | Name and description suffice; either one empty is refused. |
| AdminMajors.ReopenedMajorSavesItself | src/pages/Admin/Majors.tsx:84-168 | A major opened and saved unchanged is sent as an update of itself, with its own fields. |
| AdminMajors.OpenThenClose | src/pages/Admin/Majors.tsx:107-117 | Opening, editing and closing leaves an empty, closed form. |
| AdminQuestions.Filtered | src/pages/Admin/HollandQuestions.tsx:70-76 | "all" keeps every question. Another filter keeps exactly the questions of that type, each as often as it occurs. |
| AdminQuestions.FilterMembersAll | src/pages/Admin/HollandQuestions.tsx:74 | The type filter keeps exactly the questions of that type, each as often as it occurs. |
| AdminQuestions.Counts | src/pages/Admin/HollandQuestions.tsx:312 | One count per type button, six in all. |
| AdminQuestions.SavedId | src/pages/Admin/HollandQuestions.tsx:135 | A nonzero `parseInt` of the id field is the id. Otherwise the time is used. |
| AdminQuestions.SaveRequest | src/pages/Admin/HollandQuestions.tsx:123-148 | Nothing is sent exactly when the type or text is empty. Otherwise the question with the saved id is sent, as an update of the edited question's original id or as a creation. |
| AdminQuestions.QuestionsPage.constructor | src/pages/Admin/HollandQuestions.tsx:44-54 | The fetched list, the filter "all" showing all of it, and a closed, empty dialog. |
| AdminQuestions.QuestionsPage.SetFilterType | src/pages/Admin/HollandQuestions.tsx:70-76 | The filter effect keeps the shown list equal to the filter of the list. |
| AdminQuestions.QuestionsPage.OpenDialog | src/pages/Admin/HollandQuestions.tsx:94-111 | The form is filled from the question, with its id as text, or emptied, and the dialog opens. |
| AdminQuestions.QuestionsPage.CloseDialog | src/pages/Admin/HollandQuestions.tsx:113-121 | The dialog closes and the form is emptied. |
| AdminQuestions.QuestionsPage.Save | src/pages/Admin/HollandQuestions.tsx:123-163 | The request that is sent. The dialog closes only when the request is sent and accepted. |
| AdminQuestions.FilterKeepsOrder | src/pages/Admin/HollandQuestions.tsx:71-74 | The shown list keeps the questions' original order. |
| JsArray.SubsequenceRefl | src/pages/Admin/HollandQuestions.tsx:72 | The unfiltered list is trivially in order. |
| AdminQuestions.CountIsFilteredLength | src/pages/Admin/HollandQuestions.tsx:312 | Each button's count is the length of the list its filter shows. |
| AdminQuestions.CountStep | src/pages/Admin/HollandQuestions.tsx:312 | A question adds one to its own type's count and nothing to the others. |
| AdminQuestions.CountsTotal | src/pages/Admin/HollandQuestions.tsx:312 | The six counts added up. |
| AdminQuestions.SixCountsCoverAll | src/pages/Admin/HollandQuestions.tsx:303-312 | When every question has one of the six types, the six counts add up to the number of questions. |
| AdminQuestions.CountsSumToTotal | src/pages/Admin/HollandQuestions.tsx:303-312 | The counts add up to the "all" count. |
| AdminQuestions.SaveNeedsTypeAndText | src/pages/Admin/HollandQuestions.tsx:124-135 | Type and text suffice, and an empty id takes the time. Either one empty is refused. |
| AdminQuestions.ReopenedIdRoundTrip | src/pages/Admin/HollandQuestions.tsx:97-135 | A question reopened and saved keeps its id, unless that id is 0, which the time replaces. |
| AdminQuestions.SavedIdReadsLeadingDigits | src/pages/Admin/HollandQuestions.tsx:135 | An id field of a nonzero number followed by other text saves as that number. |
| AdminExamBlocks.ParseSubjects | src/pages/Admin/ExamBlocks.tsx:105 | No parsed subject is empty. |
| AdminExamBlocks.SaveRequest | src/pages/Admin/ExamBlocks.tsx:100-117 | There is no required field. The parsed form is sent as an update of the edited block's `_id`, or as a creation. |
| AdminExamBlocks.ExamBlocksPage.constructor | src/pages/Admin/ExamBlocks.tsx:38-45 | The dialog starts closed with an empty form. |
| AdminExamBlocks.ExamBlocksPage.OpenDialog | src/pages/Admin/ExamBlocks.tsx:68-87 | The form is filled from the block, with subjects joined by ", ", or emptied; the dialog opens. |
| AdminExamBlocks.ExamBlocksPage.CloseDialog | src/pages/Admin/ExamBlocks.tsx:89-98 | The dialog closes and all four fields return to ''. |
| AdminExamBlocks.ExamBlocksPage.Save | src/pages/Admin/ExamBlocks.tsx:100-132 | The request is always sent. The dialog closes only when the service accepts it. |
| AdminExamBlocks.ParsedSubjectsTrimmed | src/pages/Admin/ExamBlocks.tsx:105 | Every parsed subject is trimmed at both ends. |
| AdminExamBlocks.ParsedSubjectsInOrder | src/pages/Admin/ExamBlocks.tsx:105 | The subjects are exactly the non-empty trimmed fragments, in the order of the text, each as often as it occurs there. |
| AdminExamBlocks.SplitFragmentChars | src/pages/Admin/ExamBlocks.tsx:105 | Every fragment of a split on "," is made of characters of the text other than ','. |
| AdminExamBlocks.TrimAllSpace | src/pages/Admin/ExamBlocks.tsx:105 | Trimming white space alone leaves nothing. |
| AdminExamBlocks.BlankTextParsesEmpty | src/pages/Admin/ExamBlocks.tsx:105 | Text of white space and commas alone gives no subject. |
| AdminExamBlocks.JoinCommaSpace | src/pages/Admin/ExamBlocks.tsx:74 | Joining with ", " is joining, with ",", the list with a space before every item but the first. |
| AdminExamBlocks.TrimSpaced | src/pages/Admin/ExamBlocks.tsx:105 | A trimmed subject with a space in front trims back to itself. |
| AdminExamBlocks.SubjectsRoundTrip | src/pages/Admin/ExamBlocks.tsx:74-105 | Formatting trimmed, non-empty, comma-free subjects and parsing the text gives back the same list. |
| AdminExamBlocks.ReopenedBlockKeepsSubjects | src/pages/Admin/ExamBlocks.tsx:68-110 | Opening such a block and saving it unchanged sends its own subject list. |
| CrossCopies.SingletonBuckets | src/utils/processTopGroups.ts:11-19 | Strictly decreasing scores form one bucket per entry. |
| CrossCopies.IncludeSingles | src/utils/processTopGroups.ts:29-36 | Over one-type buckets the walk takes entries until it holds three. |
| CrossCopies.DistinctScoresTopGroups | src/utils/processTopGroups.ts:4-42 | With no two scores equal, the bucket rule gives exactly the first three of the sorted, upper-cased entries. |
| CrossCopies.ViewsAgreeWithoutTies | src/pages/Admin/ResultStep.tsx:49-52 | With upper-case keys and distinct scores, the card, the table helper and the bucket rule list the same pairs in the same order. |
| CrossCopies.ResultViewsAgree | src/pages/Admin/StudentResults.tsx:117-122 | The card and the table helper always list the same pairs. |
| CrossCopies.CopiesDifferOnTies | src/utils/processTopGroups.ts:25-26 | Six zero scores give the views three types and the bucket rule none. |
| CrossCopies.UpperCatName | src/utils/processTopGroups.ts:6 | Category keys are already upper case. |
| CrossCopies.NoTiesDistinct | src/pages/HollandTest.tsx:126 | Counters with no two equal give entries with distinct scores. |
| CrossCopies.LetteredTopGroups | src/utils/processTopGroups.ts:4-42 | On category entries with distinct scores, the bucket rule gives the first three of their sort. |
| CrossCopies.LetteredAgree | src/pages/HollandTest.tsx:126-129 | The bucket rule matches a literal top three of those entries, pair by pair. |
| CrossCopies.QuizAgreesWithBucketRule | src/pages/HollandTest.tsx:126-129 | With no two counters equal, the quiz's top three is exactly what the bucket rule gives for the same counters. |
| JsArray.Insert | src/utils/processTopGroups.ts:7 | Inserting adds exactly that entry. |
| JsArray.InsertSorted | src/utils/processTopGroups.ts:7 | Inserting into a sorted list keeps it sorted. |
| JsArray.SortDesc | src/utils/processTopGroups.ts:7 | `sort((a, b) => b[1] - a[1])` returns a permutation of its input with non-increasing scores. |
| JsArray.InsertTies | src/utils/processTopGroups.ts:7 | Insertion puts an entry ahead of the later entries of equal score. |
| JsArray.SortDescStable | src/utils/processTopGroups.ts:7 | The sort is stable: entries of equal score keep their order. |
| JsArray.SortDescHeadIsMax | src/pages/HollandTest.tsx:126-127 | The first sorted entry has the largest score. |
| JsArray.SortDescOfSorted | src/pages/HollandTest.tsx:126-127 | Sorting a sorted list leaves it unchanged. |
| JsArray.Map | src/pages/HollandTest.tsx:129 | `map` applies the function at every position. |
| JsArray.Filter | src/pages/HollandTest.tsx:134 | `filter` never lengthens a list. |
| JsArray.FilterMembers | src/pages/HollandTest.tsx:134-138 | `filter` keeps exactly the elements that pass. |
| JsArray.FilterConcat | src/pages/HollandTest.tsx:134 | Filtering distributes over concatenation. |
| JsArray.FilterCount | src/pages/Admin/Majors.tsx:124 | A filter keeps every copy of an accepted value and none of a rejected one. |
| JsArray.FilterAll | src/pages/Admin/ExamBlocks.tsx:105 | When everything passes, `filter` returns its input. |
| JsArray.FilterNone | src/data/testData.ts:263 | When nothing passes, `filter` returns []. |
| JsArray.FilterSubsequence | src/pages/HollandTest.tsx:134 | `filter` keeps the order of what it keeps. |
| JsArray.Find | src/pages/HollandTest.tsx:119 | `find` returns a passing element of the list, and nothing exactly when none passes. |
| JsArray.FindFirst | src/pages/HollandTest.tsx:91 | `find` returns the element at the first position that passes. |
| JsArray.FindConcat | src/pages/HollandTest.tsx:119 | `find` looks in the second part only when the first has no match. |
| JsArray.Take | src/pages/HollandTest.tsx:128 | `slice(0, n)` is the prefix of length min(n, length). |
| JsArray.TiesPrefix | src/pages/HollandTest.tsx:128 | The ties of a prefix are a prefix of the ties. |
| JsArray.MapConcat | src/pages/HollandTest.tsx:129 | `map` distributes over concatenation. |
| JsArray.AddNew | src/pages/HollandTest.tsx:94 | `Set.add` keeps the old elements in front, holds the value afterwards, and grows by at most one. |
| JsArray.AddAllFacts | src/pages/HollandTest.tsx:89-94 | After the adds the set holds its old elements first, repeats nothing, and holds exactly the old and added values. |
| JsArray.AddAllConcat | src/pages/HollandTest.tsx:90-94 | Adding in two rounds is adding the concatenation. |
| JsArray.AddAllSame | src/pages/HollandTest.tsx:94 | Adding one value several times adds it once. |
| JsArray.Keys | src/pages/HollandTest.tsx:131 | The keys of the entries, position by position. |
| JsArray.TopOfSort | src/pages/HollandTest.tsx:126-128 | The first n of the sort: min(n, length) input entries in order, the first being the largest. |
| JsArray.DistinctCount | src/pages/Admin/StudentResults.tsx:118 | A value occurs at most once in a list without repeats. |
| JsArray.TwiceCount | src/pages/Admin/StudentResults.tsx:118 | A value at two positions occurs at least twice. |
| JsArray.ReorderDistinctBy | src/pages/HollandTest.tsx:126-127 | Reordering keeps images distinct. |
| JsArray.ReorderKeysDistinct | src/pages/Admin/StudentResults.tsx:118-119 | Reordering keeps keys distinct. |
| JsArray.TopOfSortKeysDistinct | src/pages/Admin/StudentResults.tsx:118-120 | The top of a sort over distinct keys repeats no key. |
| JsArray.Rename | src/pages/HollandTest.tsx:129 | Renaming keeps positions and scores. |
| JsArray.InsertRename | src/pages/HollandTest.tsx:126-127 | Insertion commutes with renaming keys. |
| JsArray.SortDescRename | src/pages/HollandTest.tsx:126-127 | The sort looks only at scores, so renaming before or after it gives the same list. |
| JsArray.SortDescStrict | src/pages/HollandTest.tsx:126-127 | Without tied scores the sort is strictly decreasing. |
| JsString.Upper | src/utils/processTopGroups.ts:6 | `toUpperCase` maps each character, keeping the length. |
| JsString.UpperIdempotent | src/utils/processTopGroups.ts:6 | Upper-casing twice is upper-casing once. |
| JsString.TrimStart | src/pages/HollandTest.tsx:52 | Removes exactly the leading white space. |
| JsString.TrimEnd | src/pages/HollandTest.tsx:52 | Removes exactly the trailing white space. |
| JsString.TrimIsTrimmed | src/pages/Admin/ExamBlocks.tsx:105 | `trim` leaves neither end white, and changes a string exactly when an end is white. |
| JsString.Split | src/pages/Admin/ExamBlocks.tsx:105 | `split` always gives at least one fragment. |
| JsString.SplitNoSep | src/pages/Admin/ExamBlocks.tsx:105 | Text without the separator is one fragment. |
| JsString.SplitAtSep | src/pages/Admin/ExamBlocks.tsx:105 | Splitting at a separator splits the two sides independently. |
| JsString.SplitJoin | src/pages/Admin/ExamBlocks.tsx:74-105 | `split` undoes `join` when no item contains the separator. |
| JsString.DigitPrefix | src/pages/Admin/HollandQuestions.tsx:135 | The leading run of digits. |
| JsString.DigitChar | src/pages/Admin/HollandQuestions.tsx:98 | Each decimal digit character reads back as its value. |
| JsString.NatToString | src/pages/Admin/HollandQuestions.tsx:98 | `toString` is made of digits and has no leading zero. |
| JsString.NatToStringValue | src/pages/Admin/HollandQuestions.tsx:98 | The digits denote the number. |
| JsString.DigitPrefixAll | src/pages/Admin/HollandQuestions.tsx:135 | A string of digits is its own leading run. |
| JsString.DigitPrefixStops | src/pages/Admin/HollandQuestions.tsx:135 | The run stops at the first non-digit. |
| JsString.MagnitudePrefix | src/pages/Admin/HollandQuestions.tsx:135 | The decimal text of m, followed by non-digits, reads as m. |
| JsString.DigitIsNotSign | src/pages/Admin/HollandQuestions.tsx:135 | A digit is neither a sign nor white space. |
| JsString.ParseNatPrefix | src/pages/Admin/HollandQuestions.tsx:135 | `parseInt` reads back a natural number's text, whatever non-digit text follows. |
| JsString.ParseMinus | src/pages/Admin/HollandQuestions.tsx:135 | A minus sign before a readable magnitude reads as its negation. |
| JsString.ParseNegPrefix | src/pages/Admin/HollandQuestions.tsx:135 | `parseInt` reads back a negative number's text, whatever non-digit text follows. |
| JsString.ParseIntPrefix | src/pages/Admin/HollandQuestions.tsx:135 | `parseInt` reads back any integer's text, whatever non-digit text follows. |
| JsString.ParseIntToString | src/pages/Admin/HollandQuestions.tsx:97-135 | `parseInt` inverts `toString` on integers. |

## Left out

- **Network and storage.** The admin service, the student API and the mock CRUD in src/services are not modelled. A handler's service call is a boolean parameter `serviceOk`: true means the request succeeded.
- **React.** The model skips rendering, CSS selection, toasts, icons, routing, the dashboard and loading flags. It also skips `useEffect` fetching and asynchronous `setState` batching. Each handler is one atomic state change.
- **The delete handlers.** They depend on `window.confirm` and the service, and change no modelled state they could confirm.
- **The clock.** `Date.now()` in the question save is a parameter `now`, and `toLocaleDateString` is not modelled.
- **Floating point.** Marks and gaps are Dafny `real`s. The model drops `parseFloat` of the inputs and the `toFixed(1)` text, and keeps the three-way classification.
- **`Number(v)` and NaN.** Scores are integers, so a non-numeric score and the comparator misbehaviour it would cause are not modelled.
- **The regular expression in the quiz.** It becomes the plain function "text between the first `(` and the first `)` after it, split on `', '`".
- **`toUpperCase`.** It is modelled on ASCII letters; other characters are left unchanged.
- **`parseInt`.** It is modelled with the radix detection of `0x`/`0X`. Infinity, numeric separators and precision loss on very long digit strings are not modelled.
- **The rich advice HTML and the description texts on the result card.** They are shown as given.
- **The printable card's university and major fields.** The fetch never fills them, so they are always absent.
- ResultStep.TopThree: keys are not restricted to the six categories. The card renders `hollandTypeDescriptions[item.type]`, and a key outside the six would fail there; that failure is not modelled.
- HollandTest.Wizard.constructor: the imported catalog arrays are constant fields of the page, rather than module-level imports.
- **The form field setters of the admin dialogs.** The `onChange` handlers that copy a typed value into one form field are not modelled, for example `src/pages/Admin/Majors.tsx:252-273`, `src/pages/Admin/HollandQuestions.tsx:237,267` and `src/pages/Admin/ExamBlocks.tsx:201-228`. Each one replaces one field of `formData` and nothing else; the forms are given to the save handlers as values.
- **The search form of the administrator's table.** The filters at `src/pages/Admin/StudentResults.tsx:173-216` are only sent to the service, which is not modelled.
- StudentResults.RowBadges: the badges are modelled as `{type, score}` values. Only `BadgeText` gives their text.
- AdminQuestions.SaveRequest: the `type` field is sent as typed, without the TypeScript cast narrowing it to one of the six letters.

## Findings

| source | as written | input that shows it | evidently intended | confidence | as-written member | corrected member |
|---|---|---|---|---|---|---|
| src/pages/HollandTest.tsx:156-163 | `resetTest` clears every field but leaves `currentGroupIndex` where it was | Going through all six groups and pressing "restart" reopens the quiz at group 6 of 6 | The reset returns the page to its first state, group 1 included | not executed | HollandTest.ResetKeepsGroupIndex | HollandTest.RestartOpensFirstGroup |
| src/pages/HollandTest.tsx:473 | The top-type badge reads `{score}/4` | Ticking all ten Realistic statements shows `10/4` | `{score}/10`, as a category has ten statements and the administrator's card shows (ResultStep.tsx:136) | not executed | HollandTest.BadgeAsWrittenOverflows | HollandTest.BadgeWithinDenominator |
| src/pages/Admin/StudentResults.tsx:267-287 | The "Top Holland" column shows every stored entry, unsorted, and the `getTopHollandTypes` helper defined for it goes unused | Scores R:1, I:5, A:3, S:0 show four badges, starting with R:1 | The row's top three, largest first | not executed | StudentResults.RowBadgesUnranked | StudentResults.TopRowBadgesRanked |
