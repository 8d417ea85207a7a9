# Form wizard record model

This project is a Dafny model of the logic under a multi-page browser form wizard for concept selection. The pages read and rewrite one shared key/value record, kept in the browser's local storage, in this order:

1. Criteria: project, five weighted criteria, up to five ideas.
2. Idea evaluation.
3. Possibilities.
4. Column selection.
5. Formed-concept evaluation.
6. Risk prevention.
7. Second task plan.
8. Report.

The model follows the record closely:

- **The record.** `Store.Record` is a `map<Key, Value>`.
  - `Key` has one constructor per key family of the JavaScript record: `concepto{c}`, `pos{k}`, `pastel_grupo{k}`, `calif{c}_{i}`, `ca{k}`, `resultado{n}`, `calculado{c}`, `riesgo{t}`, `persona{i}` and so on.
  - `Value` distinguishes:
    - a text (`Text`);
    - a non-empty numeric string (`Number`, parsed into an exact `real`);
    - a boolean flag (`Flag`);
    - `null` (`Null`).
  - A number input of the page is an `Option<real>`: `None` stands for an empty input.
  - A key that the pages fill from a number input or with a computed result (ratings, weights, results, severities, occurrences, risks) is taken to hold a `Number`, or to be absent, `''` or `null`. A numeric text stored there as `Text` would read as 0 in the model, where `parseFloat` reads its number.
- **The flat index scheme and the list of existing ideas** are modelled in `Indexing` and `Ideas`:
  - possibility or selection `(idea-1)*3+slot`;
  - formed rating `(col-1)*5+crit`;
  - an idea exists when its text is non-blank after JavaScript `trim`.
- **Weighted scoring** (`Scoring`, `Evaluation`) is one specification shared by the idea page and the formed-concept page:
  - blank ratings are filled with 0;
  - any rating outside [0,10] rejects the calculation;
  - an accepted calculation stores the sum of rating × weight and sets the "computed" flag;
  - an edit clears the flag and the result;
  - a proceed gate requires everything to be computed.
- **Each page is a class.** Its fields are the page's copy of the record (`data`), what local storage holds (`stored`) and the page's inputs. Its methods are the page's handlers: load, edit, calculate, validate, save.
- **Loops of the source are methods with loop invariants.** Each is proved against a specification function, and the lemmas state what the source promises about that function.

Where the intended behaviour and the code disagree, the model follows the code:

- **Criteria migration** (`js/criterios.js:263-270`). A format migration is expected not to discard a stored weight. The code overwrites `peso5` with `''` whenever `criterio4` is set and `criterio5` is empty, even if `peso5` holds a weight. `Criteria.MigrationClearsWeight` exhibits a record where this happens.
- **Report best-concept scan.** The report's scan (`js/resultados.js:895-906`) and the best-concept resolver of the prevention and task pages (`js/prevenir.js:58-60`) disagree when a result is negative. `Report.ReportDiffersOnNonPositive` shows an input where they differ. Both are modelled as written.

## Model

| member | source | states |
|---|---|---|
| Indexing.FlatIndexRange | js/morfologia.js:82 | an (idea, slot) index lies in 1..15, inside the idea's own block of three |
| Indexing.FlatIndexRoundTrip | js/gc1.js:84-100 | the idea and the slot are recovered from the flat index |
| Indexing.FlatIndexOnto | js/morfologia.js:81-83 | every index 1..15 is the flat index of exactly the (idea, slot) recovered from it |
| Indexing.FlatIndexInjective | js/morfologia.js:82 | two (idea, slot) pairs share an index iff they are the same pair |
| Indexing.RatingIndexRoundTrip | js/resultados.js:862 | a (column, criterion) rating index lies in 1..15, and the column and the criterion are recovered from it |
| Indexing.RatingIndexInjective | js/evalConceptos.js:300 | two (column, criterion) pairs share a rating index iff they are equal |
| Indexing.ColumnSlotsPartition | js/resultados.js:306-314 | the three columns' rating ranges are pairwise disjoint and together cover 1..15 |
| Ideas.ExistingSpec | js/resultados.js:26-35 | the existing ideas are strictly increasing, are exactly the ideas 1..5 whose text is non-blank after trim, and number at most 5 |
| Ideas.ExistingUpToSpec | js/resultados.js:26-35 | the same for the prefix over ideas 1..n |
| Ideas.NonBlankExists | js/resultados.js:30-31 | a text starting with a non-whitespace character makes its idea exist |
| Ideas.ExistingFrame | js/resultados.js:26-35 | the existing ideas depend only on the five idea texts |
| Ideas.ExistingConcepts | js/resultados.js:26-35 | the loop returns the existing ideas, strictly increasing, at most five |
| Ideas.CountConcepts | js/evaluacion.js:33-42 | the counter loop returns the number of existing ideas, which is in 0..5 |
| Store.OfInput | js/criterios.js:144 | a number input is stored as a truthy value iff it is non-empty, and the stored value is that number |
| Store.TrimEmptyIffBlank | js/resultados.js:31 | `trim()` gives '' iff the text is all whitespace |
| Store.TrimIdempotent | js/diagrama2.js:253 | trimming twice is trimming once |
| Scoring.KeysInjective | js/evaluacion.js:181 | distinct (owner, criterion) pairs have distinct rating keys, and distinct owners have distinct result and flag keys |
| Scoring.ResultKeysOverlap | js/evalConceptos.js:324 | as written, formed concepts 1 and 2 store their result at the keys of ideas 4 and 5 |
| Scoring.WrittenResultReadAcross | js/evalConceptos.js:360-366 | as written, a result stored for idea 4 is read back as formed concept 1's result, and the reverse |
| Scoring.ResultKeysSeparate | js/evaluacion.js:189 | with the corrected keys, two owners of either kind share a result key iff they are the same owner |
| Scoring.ResultWriteKeepsOthers | js/evalConceptos.js:324 | with the corrected keys, storing one owner's result leaves every other owner's result unchanged |
| Scoring.SumUpToSpec | js/evaluacion.js:178 | the running total over criteria 1..n is the weighted sum of the first n ratings |
| Scoring.WeightedSumBounds | js/evaluacion.js:171-178 | with ratings in [0,10] and non-negative weights, the score lies between 0 and 10 × the total weight |
| Scoring.FillRowSpec | js/evaluacion.js:166-168 | filling blanks with 0 keeps the input keys, fills every input of that row, and changes no row's ratings as read |
| Scoring.CalculateStoresRatings | js/evaluacion.js:181 | calcular stores every rating of the row, blanks as 0, whether or not it is accepted |
| Scoring.CalculateAccepted | js/evaluacion.js:186-190 | with all ratings in [0,10], the result is the sum of rating × weight and the flag is true |
| Scoring.CalculateRejected | js/evaluacion.js:191-198 | with a rating out of range, the flag is false and the stored result is left as it was |
| Scoring.CalculateFrame | js/evaluacion.js:155-198 | calcular changes no key besides the row's ratings, its result and its flag |
| Scoring.CalculateKeepsWeights | js/evaluacion.js:172 | calcular leaves the weights unchanged |
| Scoring.CalculateConsistent | js/evaluacion.js:155-198 | after calcular, a set flag means the stored result equals the weighted sum of the stored ratings |
| Scoring.InvalidateSpec | js/evaluacion.js:114-128 | an edit on a computed owner clears its flag and sets its result to null; on an uncomputed owner it changes nothing; nothing else changes |
| Scoring.InvalidateOthers | js/evalConceptos.js:200-214 | an edit leaves every other owner's flag and result as they were |
| Scoring.CalculateKeepsConsistent | js/evaluacion.js:155-198 | calcular of any owner, of either page, keeps every consistent owner consistent |
| Scoring.InvalidateKeepsConsistent | js/evalConceptos.js:200-214 | the edit listener's invalidation of any owner keeps every consistent owner consistent |
| Scoring.ScoreExample | js/evaluacion.js:178 | ratings [8,5,0,10,6] with all weights 2 score 58 |
| Evaluation.LoadedInputsMatchStored | js/evaluacion.js:227-243 | inputs filled from the stored ratings on load read back as the stored ratings |
| Evaluation.AdoptedSpec | js/evaluacion.js:215-221 | on reload, an owner with a stored truthy result is marked computed; other owners' flags and all other keys are kept |
| Evaluation.AdoptedKeepsNonFlags | js/evalConceptos.js:357-366 | the reload changes no idea text, rating or result |
| Evaluation.LoadedSynced | js/evaluacion.js:207-251 | after reload, every owner's inputs agree with its stored ratings |
| Evaluation.AdoptStoredResults | js/evaluacion.js:207-221 | the reload loop produces the adopted record, with a true flag exactly where a result is stored |
| Evaluation.CalculateOwner | js/evaluacion.js:155-198 | calcular yields the specified record and the inputs with blanks filled by 0 |
| Evaluation.ScoreRatings | js/evaluacion.js:161-182 | the criterion loop stores the filled ratings and returns their weighted sum and whether all are in [0,10] |
| Evaluation.RatingsAreValid | js/evaluacion.js:292-299 | the validation loop holds iff every non-blank rating is in [0,10] |
| Evaluation.StatusMessage | js/evaluacion.js:305-317 | no error iff the ratings are valid and all are computed; the range error iff a rating is invalid; otherwise "calculate all" |
| Evaluation.ComputedAmongSpec | js/evaluacion.js:265-279 | the count of computed owners is at most their number, and equals it iff every owner's flag is set |
| Evaluation.SaveRowsSpec | js/evaluacion.js:334-342 | the save stores every rating input, blank as 0, and changes no other key |
| Evaluation.StoreRows | js/evaluacion.js:334-342 | the save loop produces the specified record |
| Evaluation.SaveRowsKeepsSyncedRatings | js/evaluacion.js:334-342 | saving inputs that agree with the stored ratings leaves those ratings as they were |
| Evaluation.SaveRowsKeepsConsistent | js/evaluacion.js:323-345 | a save whose computed owners' inputs agree with their stored ratings keeps every consistent owner consistent |
| Evaluation.SaveRowsKeepsOthers | js/evalConceptos.js:451-460 | saving changes neither the existing ideas nor any flag |
| Evaluation.CalculateKeepsSynced | js/evaluacion.js:155-198 | calcular keeps every owner's inputs in agreement with its stored ratings |
| Evaluation.CalculateKeepsOtherRatings | js/evalConceptos.js:288-329 | calcular of one owner leaves every other owner's stored ratings unchanged |
| Evaluation.EditKeepsSynced | js/evaluacion.js:114-128 | an edit followed by invalidation keeps inputs and record in agreement |
| Evaluation.CalculateKeepsExisting | js/evaluacion.js:155-198 | calcular changes no idea text, so the existing ideas stay the same |
| Evaluation.InvalidateKeepsExisting | js/evaluacion.js:114-128 | invalidation changes no idea text |
| IdeaEvaluation.TodosCalculados | js/evaluacion.js:257-280 | the gate loop holds iff there is an existing idea and every existing idea is computed |
| IdeaEvaluation.AllComputedByCount | js/evaluacion.js:258-279 | the gate is "some idea exists and the computed count equals the existing count"; blank ideas are ignored |
| IdeaEvaluation.ExistingAreOwners | js/evaluacion.js:208-213 | the existing ideas are distinct ideas 1..5 |
| IdeaEvaluation.IdeaEvaluationPage.Load | js/evaluacion.js:47-111 | load fills the inputs from storage, re-marks stored results as computed, and sets the gate and the message; with no idea it renders no input, changes nothing and leaves the button and the message as the markup has them |
| IdeaEvaluation.IdeaEvaluationPage.ValidateAll | js/evaluacion.js:285-318 | the save button is enabled iff ratings are valid and all are computed, exactly when the message is empty |
| IdeaEvaluation.IdeaEvaluationPage.Calcular | js/evaluacion.js:155-202 | an existing idea is calculated as specified; a blank idea has no inputs and nothing changes |
| IdeaEvaluation.IdeaEvaluationPage.EditRating | js/evaluacion.js:114-128 | an edit updates the input and invalidates that idea only |
| IdeaEvaluation.IdeaEvaluationPage.SaveAndContinue | js/evaluacion.js:323-345 | nothing is written unless all are computed; otherwise every rating is stored, blank as 0, and the record goes to storage |
| FormedEvaluation.Owners | js/evalConceptos.js:102 | the three formed concepts, present only when some idea exists |
| FormedEvaluation.TodosCalculados | js/evalConceptos.js:339-352 | the gate loop holds iff all three formed flags are set |
| FormedEvaluation.ChoicesLength | js/evalConceptos.js:81-97 | the selected options number at most the existing ideas |
| FormedEvaluation.ChoicesSound | js/evalConceptos.js:88-93 | every listed option is non-blank and is the selection of an existing idea |
| FormedEvaluation.ChoicesComplete | js/evalConceptos.js:85-93 | every non-blank selection of an existing idea is listed |
| FormedEvaluation.SelectedOptions | js/evalConceptos.js:81-97 | the loop returns the non-blank selections of the column, in existing-idea order |
| FormedEvaluation.ChoicesOfExisting | js/evalConceptos.js:81-97 | the three facts above, for the existing ideas of the record |
| FormedEvaluation.FormedEvaluationPage.Load | js/evalConceptos.js:101-197 | load fills the inputs, re-marks stored results and sets the gate and the message; with no idea it renders no input, changes nothing and leaves the button and the message as the markup has them |
| FormedEvaluation.FormedEvaluationPage.ValidateAll | js/evalConceptos.js:402-435 | the save button is enabled iff ratings are valid and all three are computed, exactly when the message is empty |
| FormedEvaluation.FormedEvaluationPage.Calcular | js/evalConceptos.js:288-333 | a column is calculated as specified when tables are rendered; otherwise nothing changes |
| FormedEvaluation.FormedEvaluationPage.EditRating | js/evalConceptos.js:200-214 | an edit updates the input and invalidates that column only |
| FormedEvaluation.FormedEvaluationPage.SaveAndContinue | js/evalConceptos.js:440-463 | nothing is written unless all are computed; otherwise every rating is stored at `ca{(col-1)*5+crit}`, blank as 0 |
| Possibilities.IdeaSlotsSpec | js/morfologia.js:81-82 | idea c's inputs are exactly the flat indices in its block of three |
| Possibilities.SlotsUpToSpec | js/morfologia.js:61-83 | the inputs rendered for ideas 1..n are exactly the slots of the existing ideas among them |
| Possibilities.RenderedSlotsSpec | js/morfologia.js:61-68 | exactly the slots of the existing ideas are rendered, all in 1..15 |
| Possibilities.GenerarTablas | js/morfologia.js:61-83 | the rendering loop produces those slots, each pre-filled with the stored possibility or '' |
| Possibilities.SavedSpec | js/morfologia.js:145-150 | the save writes each rendered input trimmed and changes nothing else |
| Possibilities.SaveKeepsBlankIdeas | js/morfologia.js:145-150 | the possibilities of a blank idea keep their stored values |
| Possibilities.SaveThenReload | js/morfologia.js:83 | after a save, reloading shows each input trimmed, so saving again stores the same texts |
| Possibilities.SaveKeepsSlots | js/morfologia.js:145-150 | a save keeps the set of rendered inputs |
| Possibilities.StorePossibilities | js/morfologia.js:145-150 | the save loop produces the specified record |
| Possibilities.PossibilitiesPage.Load | js/morfologia.js:61-83 | load renders the existing ideas' inputs with their stored texts |
| Possibilities.PossibilitiesPage.SaveAndContinue | js/morfologia.js:140-153 | the inputs are stored trimmed and the record goes to storage |
| Selection.BoxLayout | js/gc1.js:84-100 | a box's possibility index and group index lie in 1..15; two boxes share a group iff same idea and column; they share a possibility iff same idea and row |
| Selection.BoxOrderSpec | js/gc1.js:61-68 | boxes are rendered exactly for existing ideas, three rows by three columns |
| Selection.FreshIdeaChecksAllAsWritten | js/gc1.js:161-164 | as written, an idea with nothing stored shows all three boxes of each column checked |
| Selection.CheckedOnLoadSpec | js/gc1.js:161-164 | corrected load rule: no stored selection checks no box, and distinct possibilities give at most one checked box per group |
| Selection.ConfigureBoxes | js/gc1.js:154-170 | the load loop gives every rendered box its load state by the corrected rule (see Findings) |
| Selection.SelectionPage.Load | js/gc1.js:45-117 | load renders a grid for each existing idea and no other box, keeps the record, and checks each box by the corrected load rule |
| Selection.ClearedUpToSpec | js/gc1.js:176-180 | unchecking the others over rows 1..n clears exactly the other boxes of that group |
| Selection.AfterCheckSpec | js/gc1.js:176-180 | after a check, the checked box is the only one in its group; other groups are unchanged |
| Selection.AfterChangeSpec | js/gc1.js:176-193 | a check stores the row's possibility text, or ''; an uncheck leaves the key iff a box of the group is still checked; no other key changes |
| Selection.CheckThenReload | js/gc1.js:161-183 | a box checked on a stored text is checked again on reload |
| Selection.AfterChangeKeepsExisting | js/gc1.js:183-191 | a change does not alter the existing ideas |
| Selection.ClearOthers | js/gc1.js:178-180 | the uncheck loop gives the specified state |
| Selection.ScanGroup | js/gc1.js:186-188 | the scan reports whether any box of the group is checked |
| Selection.SelectionPage.Change | js/gc1.js:175-193 | a change event updates the boxes and the record as specified, then writes to storage |
| Selection.SelectionPage.SaveAndContinue | js/gc1.js:202-212 | the record is written to storage once more, unchanged, so storage holds the page's record |
| BestConcept.MaxSpec | js/prevenir.js:59 | `Math.max` is an element and bounds all of them |
| BestConcept.IndexOfSpec | js/prevenir.js:59 | `indexOf` gives the first position holding the value, or -1 |
| BestConcept.BestIndexSpec | js/prevenir.js:58-60 | -1 iff all three results are 0; otherwise the first position of the maximum |
| BestConcept.BestIndexNegativeExample | js/diagrama2.js:59-61 | with a negative first result and zeros, the best index is 1 |
| BestConcept.BestIndexTieExample | js/prevenir.js:59 | a tie goes to the first column |
| BestConcept.FirstMatchSpec | js/prevenir.js:99-109 | the search finds a match iff some possibility from slot n on equals the selection, and returns that text |
| BestConcept.CompositionSpec | js/prevenir.js:80-118 | no composition without a best; otherwise one entry per existing idea, in ascending order, with its name and an option present iff a possibility equals the selection |
| BestConcept.EmptySelectionShowsEmptyOption | js/diagrama2.js:85-115 | an empty selection matches an empty possibility and shows it |
| BestConcept.ComposeBest | js/diagrama2.js:80-119 | the composition loop produces the specified entries |
| BestConcept.FindOption | js/diagrama2.js:100-110 | the search loop with break finds the first matching possibility |
| BestConcept.BestConceptSection | js/prevenir.js:54-118 | the best index is in -1..2 and the composition is the specified one |
| Prevention.AllFieldKeysSpec | js/prevenir.js:320-324 | the data-key inputs are the seven text and date fields of each of the three tables, 21 keys, without repeats |
| Prevention.LoadedScores | js/prevenir.js:149 | one severity or occurrence input per table 1..3 |
| Prevention.RiskSpec | js/prevenir.js:280-296 | a risk exists iff both inputs parse to [1,10]; it is then in [1,100] and at least each factor |
| Prevention.ComputeRisk | js/prevenir.js:280-291 | the computation gives the specified risk |
| Prevention.RecalculatedSpec | js/prevenir.js:302-310 | on load each table's risk is recomputed when valid and kept otherwise; no other key changes |
| Prevention.WriteFieldsSpec | js/prevenir.js:320-324 | the field loop writes each data-key input as text and nothing else |
| Prevention.WriteScoresSpec | js/prevenir.js:327-339 | the score loops write each severity and occurrence and nothing else |
| Prevention.SavedSpec | js/prevenir.js:315-339 | the save stores every field and every score, changes no other key, and does not recompute `riesgo` |
| Prevention.SaveLoadRoundTrip | js/prevenir.js:230-256 | after a save, reloading shows each field saved (an empty date shows today) and each score as saved |
| Prevention.PreventionPage.Load | js/prevenir.js:149-268 | load fills the inputs from storage and recomputes the risks |
| Prevention.PreventionPage.CalcularRiesgo | js/prevenir.js:274-297 | the table's risk is set when valid and kept otherwise; the alert is raised exactly on invalid inputs |
| Prevention.PreventionPage.RecalcularRiesgosSiExisten | js/prevenir.js:302-310 | the loop recomputes the risks as specified |
| Prevention.PreventionPage.SaveAndContinue | js/prevenir.js:315-340 | the record after save is the specified one and goes to storage |
| TaskPlan.RenderedSpec | js/diagrama2.js:189-192 | exactly rows 16..30 are rendered, each field showing its stored text or '' |
| TaskPlan.GenerarTareas | js/diagrama2.js:189-192 | the rendering loop gives the specified inputs for every row |
| TaskPlan.SavedSpec | js/diagrama2.js:251-256 | the save stores every field of rows 16..30 trimmed and changes no other key |
| TaskPlan.SaveKeepsFirstRows | js/diagrama2.js:251-256 | rows 1..15 are not touched |
| TaskPlan.SaveIsStable | js/diagrama2.js:189-192 | after a save, reloading shows each field trimmed, so a second save stores the same texts |
| TaskPlan.StoreTasks | js/diagrama2.js:251-256 | the save loop produces the specified record |
| TaskPlan.TaskPlanPage.Load | js/diagrama2.js:158-218 | load keeps the record and renders exactly rows 16..30, each field showing its stored text or '' (by TaskPlan.RenderedSpec) |
| TaskPlan.TaskPlanPage.SaveAndContinue | js/diagrama2.js:246-259 | the inputs are stored trimmed and the record goes to storage |
| Criteria.MessageSpec | js/criterios.js:76-120 | the message is empty iff advancing is allowed; otherwise it follows the stated priority, and the sum message shows the actual sum |
| Criteria.ZeroWeightsAskForWeights | js/criterios.js:82-117 | with every weight 0 or blank, the sum message is suppressed and the weights message is shown |
| Criteria.SumExample | js/criterios.js:82-87 | weights [3,3,3,3,3] block advancing and report the sum 15 |
| Criteria.PassExample | js/criterios.js:76 | weights [2,2,2,2,2] with every other condition met allow advancing |
| Criteria.MigratedSpec | js/criterios.js:263-270 | the migration sets `criterio5` and `peso5` to '' exactly when `criterio4` is set and `criterio5` empty, and touches nothing else |
| Criteria.MigratedIdempotent | js/criterios.js:263-270 | migrating twice equals migrating once |
| Criteria.MigrationClearsWeight | js/criterios.js:265-267 | a stored `peso5` is cleared when `criterio5` is empty |
| Criteria.SavedWrites | js/criterios.js:128-150 | the save stores trimmed name, description, criteria and ideas, raw weights, and `numCriterios = 5` |
| Criteria.SavedKeeps | js/criterios.js:134-146 | the save leaves every other key, including criteria and weights above 5 |
| Criteria.SaveLoadRoundTrip | js/criterios.js:128-150 | reloading after a save gives the form with its texts trimmed |
| Criteria.NormalizedKeepsAdvance | js/criterios.js:55-76 | trimming the texts changes neither the advance decision nor the message |
| Criteria.ReloadAfterSave | js/criterios.js:275-277 | after a save that was allowed, the migration on reload changes nothing, and the reloaded form still allows advancing |
| Criteria.CriteriaPage.Load | js/criterios.js:275-277 | load migrates before filling the form, then sets the button and message |
| Criteria.CriteriaPage.ValidateAndEnable | js/criterios.js:54-123 | the button is enabled iff advancing is allowed, exactly when the message is empty |
| Criteria.CriteriaPage.Edit | js/criterios.js:232-247 | every input event replaces the form and validates again: the button is enabled iff CanAdvance, and the message is ValidationMessage |
| Criteria.CriteriaPage.SaveAndContinue | js/criterios.js:128-153 | the record after save is the specified one and goes to storage |
| Report.GroupsOfSpec | js/resultados.js:41-77 | one group per existing idea, in order |
| Report.GroupsSpec | js/resultados.js:41-77 | each group's numero is `(c-1)*3+col` in 1..15, numbers are pairwise distinct across columns, and the selection is the stored value exactly when it is truthy |
| Report.DynamicGroups | js/resultados.js:41-77 | the loop builds the three columns as specified |
| Report.HasEvaluationData | js/resultados.js:292-314 | the scan holds iff some rating of the owner is truthy |
| Report.FormedListedSpec | js/resultados.js:306-314 | a formed concept has data iff one of its five `ca` keys is truthy; every index 1..15 belongs to its own column |
| Report.ScoreMatchesStoredResult | js/resultados.js:860-866 | when the owner is consistent and computed, the report's recomputed total is its stored result |
| Report.ScoreAfterCalculate | js/evaluacion.js:155-198 | right after an accepted calcular, the owner is computed and the report's total is the stored result, the weighted sum of the ratings entered |
| Report.WeightChangeLeavesStaleResult | js/criterios.js:141-144 | a weight rewritten after calcular keeps the owner flagged with its old result, and the report's total differs from it |
| Report.ScoreBounds | js/resultados.js:860-866 | with ratings in range and non-negative weights, the total lies in [0, 10 × total weight] |
| Report.MissingAddsNothing | js/resultados.js:584-601 | a missing rating adds nothing, so skipping it equals counting it as 0 |
| Report.IdeaTotal | js/resultados.js:584-601 | the idea total loop gives the weighted sum of stored ratings, missing ones as 0 |
| Report.FormedTotal | js/resultados.js:860-866 | the formed total loop gives the weighted sum of stored ratings |
| Report.FormedWrittenSpec | js/resultados.js:838-873 | the report writes a concept's total as its result exactly for concepts with data; no other key changes |
| Report.FormedSection | js/resultados.js:836-873 | the section loop writes those results and reports whether any concept has data |
| Report.ScanSpec | js/resultados.js:895-904 | the strict `>` scan returns the first column of the maximum, or none when no result exceeds -1 |
| Report.ScanBest | js/resultados.js:895-904 | the scan loop gives the specified pair |
| Report.ReportedSpec | js/resultados.js:906 | a best is reported iff some result is positive, and it is then the resolver's best; all zeros report none |
| Report.ReportDiffersOnNonPositive | js/resultados.js:906 | the report and the resolver disagree on [-1,0,0] |
| Report.BestSection | js/resultados.js:895-906 | the section scans the results written just before it |
| Report.ListedPrevention | js/resultados.js:963-977 | a prevention table is listed iff one of its ten fields is truthy |
| Report.ListedTaskRows | js/resultados.js:1083-1088 | a task row is listed iff persona, tarea or salida is truthy |
| Report.ListedTasks | js/resultados.js:1071-1143 | rows 1..15 and 16..30 are listed by that rule under their headings, which are always printed, and the 'no tasks' note is printed iff no row 1..30 is listed |

## Left out

- PDF layout in the report (fonts, coordinates, page breaks, the download): jsPDF is a foreign library, and the layout is presentation only.
- Translations, language selectors and theme toggling: these are presentation, plus asynchronous script loading.
- Local storage: it is modelled as a `stored` field that `SaveAndContinue` replaces with the whole record. JSON encoding and navigation are not modelled.
- DOM templating and querying: inputs are modelled as maps from keys to strings or `Option<real>`.
- `parseFloat` and `toFixed` rounding: results and risks are exact `real` values, not strings rounded to two decimals.
- Criteria.CanAdvance, Criteria.ValidationMessage: the weight sum is an exact `real`, while the page compares an IEEE double sum with `=== 10` (js/criterios.js:76). Weights such as [0.1, 0.1, 6.2, 1.8, 1.8] sum to exactly 10 in the model, so advancing is allowed there, but the page's sum is 10.000000000000002 and it blocks.
- The date default `new Date()`: it is the `today` parameter of `Prevention.PreventionPage.Load`.
- The character counter of the criteria page: it is presentation only.
- Alerts: `Prevention.PreventionPage.CalcularRiesgo` returns whether one is raised; the rating-range alert is not modelled.
- Prevention.PreventionPage.Load, Prevention.PreventionPage.RecalcularRiesgosSiExisten: on load, every table with both scores present is recomputed through `calcularRiesgo` (js/prevenir.js:302-310), which alerts for a score out of 1..10 (js/prevenir.js:283-287). The model recomputes the same tables but does not model that alert.
- Label fallbacks such as `Opción N`, `Idea N` and `Criterio N`: display text only.
- Possibilities.SaveThenReload, TaskPlan.SaveIsStable, Prevention.SaveLoadRoundTrip: the pages put stored texts unescaped into `value="…"` attributes (js/morfologia.js:98-99, js/prevenir.js:184-255, js/diagrama2.js:199-213). A text containing `"` is cut at that character on reload, and one containing `&` may have a character reference decoded. The model renders stored texts as they are, so these round trips, and the loads of `Possibilities.PossibilitiesPage`, `Prevention.PreventionPage` and `TaskPlan.TaskPlanPage`, hold as stated only for texts with neither `"` nor `&`.
- Report: its writes to `data[resultado*]` are modelled in memory only, since the report page never saves.
- Report.ScoreMatchesStoredResult: it needs the owner to be consistent, with its stored result equal to the weighted sum of its stored ratings under the stored weights. `calcular` establishes this (Report.ScoreAfterCalculate), and the other steps of the two evaluation pages keep it (Scoring.CalculateKeepsConsistent, Scoring.InvalidateKeepsConsistent, Evaluation.SaveRowsKeepsConsistent). Two things are not covered. Re-marking on reload (`recalcularTodo`) trusts whatever result is stored. A later save of the criteria page rewrites the weights but keeps every flag and result, so a computed owner's stored result goes stale, as Report.WeightChangeLeavesStaleResult shows. The report prints its own recomputed totals either way.
- Number inputs: they are modelled as `Option<real>`. A browser number input yields '' or a number, so an unparsable text cannot occur.
- Scoring.ResultKey: the formed concepts' results are kept at `resultado{col+5}` rather than `resultado{col+3}` as the pages write them (see Findings). The best-concept resolver and the report read the same corrected keys, and the report also writes its totals there: `Report.FormedSection` writes formed concept `col` at `resultado{col+5}`, where the report as written assigns `resultado{col+3}` (js/resultados.js:872).
- Selection.ConfigureBoxes, Selection.SelectionPage.Load: they check a box by the corrected load rule (see Findings). An idea with neither `pastel_grupo{k}` nor `pos{k}` stored shows no box of that group checked, where the page as written shows all three checked. `Selection.FreshIdeaChecksAllAsWritten` states the rule as written.
- IdeaEvaluation.IdeaEvaluationPage.Load, FormedEvaluation.FormedEvaluationPage.Load: the markup's initial state of the save button and of the error message is not part of this model. It is taken as the parameters `shownEnabled` and `shownMessage`, which the page keeps when no idea exists.
- TaskPlan.GenerarTareas: the rows are exactly 16..30, as the page fixes them. It loads only its own page's rows; the first task page feeding rows 1..15 is not part of this model.
- The first task page and js/bloqueo.js, js/index.js: they are not part of this model.

## Findings

| source | as written | input that shows it | evidently intended | confidence | as-written member | corrected member |
|---|---|---|---|---|---|---|
| js/evalConceptos.js:324 | formed concept `col` stores its result at `resultado{col+3}`, and ideas 4 and 5 store theirs at `resultado4` and `resultado5` (js/evaluacion.js:189); reloading either page marks an entry computed when its result key is set (js/evalConceptos.js:360-366, js/evaluacion.js:219-221) | five ideas, idea 4 calculated: `resultado4` is set, the formed-concept page reloads and marks formed concept 1 computed although it was never calculated | each scored entity has its own result key | high, not executed | Scoring.WrittenResultReadAcross | Scoring.ResultWriteKeepsOthers |
| js/gc1.js:161-164 | a box is checked on load when `data[pastel_grupoN] === data[posM]`, which also holds when both keys are absent | a fresh idea with no possibilities and no selections: all three boxes of each column are shown checked | check a box only when a selection is stored for its group and equals the box's possibility | high, not executed | Selection.FreshIdeaChecksAllAsWritten | Selection.CheckedOnLoadSpec |
