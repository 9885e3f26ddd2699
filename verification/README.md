# Gradeboost report page, modelled in Dafny

Gradeboost is a Streamlit app. A student answers twelve questions (age, gender,
parental education, weekly study time, absences, tutoring, parental support,
extracurricular activities, sports, music, volunteering and their Swiss grade).
The report page then does two things:

- **Deviation From Averages.** It compares eleven of the answers (all but gender) with
  dataset averages. A radar chart shows both on a min-max normalised scale, and a table
  shows the signed raw differences.
- **Grade Prediction.** It converts the Swiss grade to a US GPA and builds the 12-feature
  row for a pre-trained random forest. It then labels the five class probabilities with
  grade bands and names the most likely band.

This project models the pure computation of that page over `real`, without the rendering:

- `wrappers.dfy`, module `Wrappers`: the `Option` type used for every error path.
- `categories.dfy`, module `Categories`: the eleven categories, their (min, max) bounds,
  the dataset averages, and `Normalize` with its inverse `Denormalize`.
- `responses.dfy`, module `Responses`: the stored 12-tuple, its unpacking (`Unpack`), and
  which tuple position each category reads.
- `comparison.dfy`, module `Comparison`: the radar series, closed into loops, and the
  difference table.
- `grading.dfy`, module `Grading`: the Swiss-to-US GPA conversion and the feature vector.
- `prediction.dfy`, module `Prediction`: the grade mapping, the pie labels, the
  first-occurrence argmax and the top prediction.
- `report.dfy`, module `Report`: the page as a whole. It has three outcomes: questionnaire
  not completed, malformed data, or the report. The model assumes the UTC date lookup at
  the top of the page succeeded (see Left out). The scaler and classifier together are a
  parameter `seq<real> -> Option<seq<real>>`. `None` stands for a missing artifact or a
  prediction that raises.

Two behaviours of the code that a reader may not expect:

- An empty stored list is not the malformed-data error. The page tests the stored list's
  truthiness first (pages/Report.py:42), so `[]` gives the "complete the questionnaire"
  warning. `[]` is also what Home.py stores initially. `Report.Render` models this.
- When prediction fails, the code as written does not degrade gracefully. See Findings.

## Model

| member | source | states |
|---|---|---|
| Categories.OrderEnumeratesCategories | pages/Report.py:88-100 | the category list names each of the 11 categories exactly once, and lines up with the 11 averages |
| Categories.NamesDistinct | pages/Report.py:106-134 | category names are distinct, so the name-keyed min and max tables hold one bound per category |
| Categories.BoundsWellFormed | pages/Report.py:106-134 | max > min for every category, so normalisation is defined everywhere |
| Categories.AveragesWithinBounds | pages/Report.py:106-139 | every dataset average lies within its category's bounds |
| Categories.Normalize | pages/Report.py:144-145 | the normalised value, scaled by the category's range and shifted by its min, gives back the raw value |
| Categories.Denormalize | pages/Report.py:144-145 | an inverse of normalisation: normalising its result gives back the scale position |
| Categories.NormalizeRoundTrip | pages/Report.py:144-145 | normalising and denormalising undo each other in both directions |
| Categories.NormalizeEndpoints | pages/Report.py:106-145 | a category's min maps to 0 and its max to 1 |
| Categories.NormalizeStrictlyIncreasing | pages/Report.py:144-145 | v < w exactly when normalize(v) < normalize(w) |
| Categories.NormalizeDifference | pages/Report.py:144-145 | a raw difference equals the normalised difference times the category's range, so both have the same sign and vanish together |
| Categories.NormalizeUnclamped | pages/Report.py:144-145 | no clamping: a value is below, inside or above its bounds exactly when its image is below, inside or above [0, 1] |
| Categories.GpaAverageNormalizesToSixTenths | pages/Report.py:106-145 | the GPA average 4 normalises to 0.6 |
| Responses.FieldIndex | pages/Report.py:270-282 | each category reads one tuple position other than gender's, and that position holds the category's answer |
| Responses.FieldsInOrderPermutation | pages/Report.py:45-85 | in category order, the positions read are a permutation of the tuple positions without gender |
| Responses.Unpack | pages/Report.py:76-81 | unpacking succeeds exactly on 12 answers, and the named fields are those answers in order; any other length is the malformed-data error |
| Responses.UnpackRoundTrip | pages/Report.py:45 | unpacking the tuple of a response set gives back that response set |
| Comparison.UserValues | pages/Report.py:85 | the radar's user list has 11 entries, and entry i is the answer for category i |
| Comparison.UserValuesPermuteResponses | pages/Report.py:45-85 | the radar's user list is the 12 answers minus gender, permuted into category order, as both an index map and a multiset |
| Comparison.CloseLoop | pages/Report.py:153-155 | closing appends exactly one element, equal to the first, and leaves the rest unchanged |
| Comparison.Radar | pages/Report.py:147-155 | categories, user series and average series all have 12 entries; point i < 11 is category i with its user value and average, each normalised with that category's bounds; each last point repeats its list's first |
| Comparison.RadarIsClosedLoop | pages/Report.py:149-155 | each radar list is the unclosed 11-element list plus its own first element |
| Comparison.TableUserValues | pages/Report.py:270-282 | the table's list of user answers is the same permutation as the radar's |
| Comparison.DifferenceTable | pages/Report.py:238-287 | 11 rows; row i is category i with the user's raw answer minus the dataset average |
| Comparison.RadarAndTableAligned | pages/Report.py:147-287 | table row i and radar point i name the same category; the row's difference is the radar gap times the category's range, so it is positive or zero exactly when the user's point is beyond or on the average's |
| Comparison.RowMatchesPoint | pages/Report.py:147-287 | the alignment of one table row with its radar point, as in RadarAndTableAligned |
| Grading.SwissToUsGpa | pages/Report.py:339-340 | the US GPA is 2 plus twice the grade's normalised position on the Swiss 1..6 scale |
| Grading.UsGpaToSwiss | pages/Report.py:339-340 | an inverse of the conversion |
| Grading.SwissToUsGpaInvertible | pages/Report.py:339-340 | the conversion loses nothing: its inverse recovers the grade |
| Grading.SwissToUsGpaAnchors | pages/Report.py:339-343 | 1 maps to 2, 6 to 4 and 5 to 3.6 |
| Grading.SwissToUsGpaStrictlyIncreasing | pages/Report.py:339-340 | g < h exactly when the converted g < the converted h |
| Grading.SwissToUsGpaUnclamped | pages/Report.py:339-340 | no clamping: grades below 1 or above 6, and only those, land below 2 or above 4 |
| Grading.FeatureVector | pages/Report.py:351-355 | 12 features: the answers in stored order, with the last (the grade) replaced by its US GPA |
| Grading.FeatureVectorOfStoredTuple | pages/Report.py:335-355 | for any 12-answer tuple, the feature vector is that tuple with its last entry converted |
| Prediction.GradeMappingShape | pages/Report.py:388-390 | the grade mapping covers exactly class indices 0..4; index 2 is the bare number 4 and the others are ranges |
| Prediction.DecimalString | pages/Report.py:405 | the canonical numeral of a natural number, as an int is formatted into a label: non-empty, all decimal digits, no leading zero, and it reads back as the number |
| Prediction.PieLabel | pages/Report.py:402-405 | a pie label is "Grade: " followed by the band's text; for the bare grade, the text after the prefix is that grade's canonical numeral |
| Prediction.MappedLabels | pages/Report.py:402-405 | one "Grade: ..." label per probability, in index order; fails exactly when there are more than 5 probabilities |
| Prediction.PieLabelsOfFiveBands | pages/Report.py:402-405 | the five pie labels are "Grade: 5.5-6", "Grade: 4.5-5", "Grade: 4", "Grade: 3-4" and "Grade: 1-3" |
| Prediction.FirstArgMaxUnique | pages/Report.py:407-408 | there is at most one first-occurrence argmax |
| Prediction.ArgMaxPrefix | pages/Report.py:407-408 | a left-to-right scan that moves only on a strictly larger value yields the first largest index of the prefix |
| Prediction.ArgMax | pages/Report.py:407-408 | for a non-empty vector, the smallest index whose probability is at least every other |
| Prediction.Top | pages/Report.py:399-410 | succeeds exactly for 1 to 5 probabilities; then the index is the first argmax, the probability is the entry there, the grade is that index's band, and the labels are the pie labels |
| Prediction.TopOfWorkedExample | pages/Report.py:407-410 | [0.1, 0.05, 0.6, 0.2, 0.05] selects index 2, the bare grade 4 |
| Prediction.TopTieKeepsFirst | pages/Report.py:407-410 | on a tie the earlier band wins |
| Report.Predict | pages/Report.py:346-410 | the prediction succeeds exactly when the classifier returns 1 to 5 probabilities for the feature row, and then it is the top prediction of those probabilities |
| Report.RenderAsWritten | pages/Report.py:42-502 | as written, nothing stored or an empty list gives the warning and 12 answers show the radar, table and prediction of those answers; a shown report ends in a NameError exactly when there is no prediction, and otherwise in the sentence with the prediction's probability and grade |
| Report.Render | pages/Report.py:42-497 | nothing stored or an empty list gives the questionnaire warning; any other length but 12 gives only the malformed-data error; 12 answers show the radar and table of those answers and the top prediction of their feature vector; the closing sentence appears exactly with the prediction |
| Report.FailedPredictionRaisesNameError | pages/Report.py:399-490 | for any 12-answer tuple whose prediction fails (classifier failure, no probabilities, or more than five), the page as written ends in a NameError and the corrected page omits the sentence |
| Report.MissingArtifactExample | pages/Report.py:346-490 | concrete inputs: well-formed answers with a classifier whose artifacts fail to load, and with six probabilities (no grade label for index 5) |
| Report.RenderAgreesUnlessNameError | pages/Report.py:487-490 | the correction changes only the case in which the code as written raises |
| Report.EndToEndScenario | pages/Report.py:339-410 | grade 5 becomes 3.6 in the feature row; probabilities [0.8, 0.1, 0.05, 0.03, 0.02] yield a closing sentence carrying likelihood 0.8 and grade band 5.5-6 |

## Left out

- Streamlit layout, columns, buttons, table toggles and messages: these are user interface.
  The outcomes that matter are the three constructors of `Report.Page`.
- Plotly radar and pie figures and their styling: these are rendering by a library.
- The UTC date lookup (pages/Report.py:20-33): network I/O. The date only appears in the report's title.
- Loading `scaler.pkl` and the random forest, `scaler.transform`, `predict` and
  `predict_proba`: these are pre-trained artifacts. `Report.Classifier` takes their combined
  effect as a parameter. The class labels from `predict` are only zipped with the
  probabilities and are not modelled.
- `reassemble_file` (pages/Report.py:364-368): file I/O. It writes the chunks' bytes
  concatenated in list order.
- SendGrid email and environment-variable lookups (pages/Report.py:519-575): a network client.
- The static feature-importance table and its sorting and formatting
  (pages/Report.py:450-479): display data only.
- Home.py: it only initialises the stored responses to an empty list and navigates.
- The percentage formatting of the top probability (`:.1%`): float formatting is out of
  scope. `Report.Closing.Sentence` carries the probability and the grade label.
- IEEE-754 rounding: all arithmetic is over `real`.
- Non-numeric answers: the model's answers are reals. So the radar column's generic
  "unexpected error" path (pages/Report.py:232-233) cannot arise.
- Comparison.DifferenceTable: a row holds the category itself, not its display string.
  `Categories.Name` gives the string the table shows.
- Report.RenderAsWritten: assumes the UTC date lookup (pages/Report.py:24-33) succeeded, and
  so does `Report.Render`. When the lookup fails, the handlers only print, and `today_date`
  stays unbound. With twelve answers, line 49 then raises a NameError. The `except ValueError`
  at line 494 does not catch it, so the page aborts before the radar, the table and the
  prediction. Any other length still fails at the unpacking on line 45 first, so that path
  stays the malformed-data error.
- Prediction.Top: it does not check that the probabilities sum to 1. The page never checks
  this either.

## Findings

| source | as written | input that shows it | evidently intended | confidence | as-written member | corrected member |
|---|---|---|---|---|---|---|
| pages/Report.py:439-490 | When the prediction section fails (a missing artifact, the KeyError at line 405, or the empty argmax at line 408), line 440 shows the error. Line 490 then still reads `max_prob` and `predicted_grade`, which were never bound. The NameError is not a ValueError, so the handler at line 494 does not catch it and the page aborts. | twelve well-formed answers with `scaler.pkl` or the model chunks missing, or a classifier answering more than five probabilities | the prediction section fails on its own and the closing sentence is omitted; the comparison half stays | medium, not executed | Report.FailedPredictionRaisesNameError | Report.Render |
