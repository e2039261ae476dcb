# Rural telemedicine intake — a Dafny model

The application is a telemedicine intake tool. A health-centre operator
registers a patient, enters five vital signs and ticks symptoms. The app then
runs a rule-based triage that scores the case and classifies it as simple,
moderate or high risk. Simple cases get a medicine list at once. Moderate
cases go on to a short video recording for a doctor. High-risk cases are
flagged for immediate attention. Doctors see the moderate and high-risk cases
on their own dashboard, newest first, and write a prescription. Submissions
made while offline wait in a local queue until the browser is back online.

This project models the deterministic core of that flow and proves what it
promises:

- `Triage` (`triage.dfy`) is the `useAIAssessment` hook: vital-sign parsing,
  the vitals and symptom scores, the status thresholds, the
  recommendation, the ordered medicine lookup with its default entry, and the
  hook's `isAssessing` flag as a small class.
- `OfflineSync` (`offline_sync.dfy`) is the `useOfflineSync` hook: the
  stored queue, stamping a submission, saving, syncing, and the
  online/offline events, as a class over the stored value.
- `Symptoms`, `VitalsForm` and `RegistrationForm` are the three intake
  forms: checkbox toggling, field updates, and the "Next" button's enabling
  rule.
- `PatientDashboard` is the operator's step machine: the step list and its
  progress bar, the navigation buttons, the assessment hand-off and its
  routing, video completion, and starting a new case.
- `DoctorDashboard` covers the doctor's side: the status badge, the case
  list query, the comma-separated medicine field (parse and join), case
  selection, and the prescribe guard and its state changes.
- `VideoRecording` is the `m:ss` timer display and the recording timer.
- `AppScreen` is the top-level page: its three-state machine and the
  dispatch on the signed-in user's role.
- `Strings` and `Numbers` hold the JavaScript built-ins the core relies
  on: `trim`, `split`, `join`, `parseInt`, `parseFloat`, `toString` and
  `padStart`, each as far as the core uses it.

Clocks, storage and the database are parameters of the modelled operations:
`now` for `Date.now()`, the stored queue for `localStorage`, and the outcome
of a database call (`created`, `updateOk`, `fetched`).

The model follows the code as written, including where its behaviour may
surprise:

- A reading that does not parse (`NaN`) adds nothing to the score. It does
  not reject the input.
- Syncing clears the queue without delivering anything. The submissions are
  not retried one by one.
- A symptom listed twice is scored twice. The list is not a set.
- The form offers `weakness`, `headache` and `vomiting`, which the scorer
  does not score. It never offers `severeHeadache`, `bodyPain`, `diarrhea`
  or `acidity`, which the scorer and the medicine table know.

## Model

| member | source | states |
|---|---|---|
| Strings.TrimStart | src/hooks/useAIAssessment.tsx:34-38 | the result is a suffix of the input, every dropped character is white space, and the result does not start with white space (how `parseInt`/`parseFloat` skip leading space) |
| Strings.TrimEnd | src/components/DoctorDashboard.jsx:77 | the result is a prefix of the input, every dropped character is white space, and it does not end with white space |
| Strings.Trim | src/components/DoctorDashboard.jsx:77 | the result has no white space at either end and is the slice of the input left after cutting only white space off its front and back |
| Strings.CutEnds | src/components/DoctorDashboard.jsx:77 | cutting leading and then trailing white space keeps exactly the slice between the cuts |
| Strings.SliceOfSuffix | src/components/DoctorDashboard.jsx:77 | the trailing white space cut from the suffix is the trailing white space of the whole input |
| Strings.TrimPadded | src/components/DoctorDashboard.jsx:66 | trimming white-space padding in front of a trimmed string gives that string back |
| Strings.Split | src/components/DoctorDashboard.jsx:77 | `split` always yields at least one part, and no part contains the separator |
| Strings.Join | src/components/DoctorDashboard.jsx:61 | no ensures of its own: `join`; Strings.JoinSplit and Strings.SplitJoin state that it inverts `split` |
| Strings.JoinSplit | src/components/DoctorDashboard.jsx:61-77 | joining the parts of a split with the same separator rebuilds the original text |
| Strings.SplitAfter | src/components/DoctorDashboard.jsx:77 | splitting `a + sep + b`, where `a` has no separator, gives `a` followed by the split of `b` |
| Strings.SplitWhole | src/components/DoctorDashboard.jsx:77 | text without the separator splits into itself alone |
| Strings.SplitTwo | src/components/VideoRecordingComponent.tsx:75 | `a + sep + b` with no separator in either part splits into exactly `[a, b]` |
| Strings.SplitJoin | src/components/DoctorDashboard.jsx:61-77 | splitting a join of separator-free parts gives the parts back |
| Numbers.DigitValue | src/hooks/useAIAssessment.tsx:34-38 | a decimal digit's value is below 10 |
| Numbers.DigitChar | src/components/VideoRecordingComponent.tsx:75 | the digit character of a value below 10 is a digit whose value is that value |
| Numbers.DigitsValue | src/hooks/useAIAssessment.tsx:34-38 | the value of `k` decimal digits is below `10^k` |
| Numbers.DigitPrefix | src/hooks/useAIAssessment.tsx:34-38 | the longest run of digits at the start: a prefix of the input, all digits, followed by a non-digit or the end |
| Numbers.NatToString | src/hooks/useOfflineSync.tsx:79 | the decimal text of a number is non-empty, all digits, and has no leading zero |
| Numbers.ParseInt | src/hooks/useAIAssessment.tsx:34-38 | no ensures of its own: `parseInt`; Numbers.ParseIntOfDigits, ParseIntIgnoresTrailer, ParseIntOfNegative, ParseIntNoDigits and ParseIntOfNatToString state what it reads |
| Numbers.ParseFloat | src/hooks/useAIAssessment.tsx:37 | no ensures of its own: `parseFloat`; Numbers.ParseFloatTenths, ParseFloatOfNatToString and PlainStart state what it reads |
| Numbers.UnsignedDecimal | src/hooks/useAIAssessment.tsx:37 | the unsigned part `parseFloat` reads never has a negative value |
| Numbers.DigitPrefixOfDigits | src/hooks/useAIAssessment.tsx:34-38 | a string of digits is read whole |
| Numbers.NatToStringValue | src/hooks/useOfflineSync.tsx:79 | the decimal text of `n` denotes `n` |
| Numbers.ParseIntOfNatToString | src/hooks/useOfflineSync.tsx:78-79 | `parseInt` reads `n.toString()` back as `n` |
| Numbers.ParseIntOfNegative | src/hooks/useAIAssessment.tsx:34 | `parseInt("-" + n)` is `-n` |
| Numbers.ParseIntIgnoresTrailer | src/hooks/useAIAssessment.tsx:34 | `parseInt` stops at the first non-digit, so `"120abc"` reads as 120 |
| Numbers.ParseIntOfDigits | src/hooks/useAIAssessment.tsx:34-38 | a non-empty digit string parses to its decimal value |
| Numbers.ParseIntOfDigitsThen | src/hooks/useAIAssessment.tsx:34 | digits followed by a non-digit parse to the digits' value |
| Numbers.DigitPrefixSplit | src/hooks/useAIAssessment.tsx:34 | the digit run of digits followed by a non-digit is exactly those digits |
| Numbers.DigitsValueAppend | src/hooks/useAIAssessment.tsx:34-38 | the value of `a + b` is `a`'s value shifted by `b`'s length plus `b`'s value |
| Numbers.ParseFloatTenths | src/hooks/useAIAssessment.tsx:37 | `parseFloat` reads a temperature such as `"101.5"` as the exact decimal 1015 tenths |
| Numbers.OneDecimal | src/hooks/useAIAssessment.tsx:37 | the unsigned reading of `ws.c` is `10 * ws + c` tenths |
| Numbers.DigitsValueSnoc | src/hooks/useAIAssessment.tsx:37 | appending a digit multiplies the value by ten and adds the digit |
| Numbers.PlainStart | src/hooks/useAIAssessment.tsx:37 | text starting with a digit has no sign or space for `parseFloat` to skip |
| Numbers.ParseFloatOfNatToString | src/hooks/useAIAssessment.tsx:37 | `parseFloat` of a whole number's text is that number with no fractional digits |
| Numbers.ParseIntNoDigits | src/hooks/useAIAssessment.tsx:34-38 | text starting with anything other than space, a sign or a digit is `NaN` to `parseInt` |
| Symptoms.IsChecked | src/components/SymptomsForm.tsx:55 | no ensures of its own: `data.includes(symptom)`; Symptoms.HandleSymptomChange states how toggling changes it |
| Symptoms.Check | src/components/SymptomsForm.tsx:36-37 | ticking appends the symptom at the end, keeps the earlier list and adds one occurrence of it |
| Symptoms.Uncheck | src/components/SymptomsForm.tsx:38-39 | unticking removes every occurrence of the symptom and keeps every other symptom with its count |
| Symptoms.HandleSymptomChange | src/components/SymptomsForm.tsx:35-41 | afterwards the box is ticked exactly when `checked`, and every other box is as it was |
| Symptoms.UncheckConcat | src/components/SymptomsForm.tsx:39 | the filter distributes over concatenation |
| Symptoms.UncheckAbsent | src/components/SymptomsForm.tsx:39 | unticking a symptom not in the list leaves the list unchanged |
| Symptoms.CheckThenUncheck | src/components/SymptomsForm.tsx:35-41 | ticking and then unticking a symptom not yet ticked restores the list exactly |
| Symptoms.UncheckIdempotent | src/components/SymptomsForm.tsx:39 | unticking twice is the same as unticking once |
| VitalsForm.HandleChange | src/components/VitalsEntryForm.tsx:31-33 | the edited field takes the new text and every other field is unchanged |
| VitalsForm.IsValid | src/components/VitalsEntryForm.tsx:35-36 | no ensures of its own: `isValid`; VitalsForm.NextDisabled, ValidAfterChange and PresenceOnly state it |
| VitalsForm.NextDisabled | src/components/VitalsEntryForm.tsx:35-36 | "Next" is disabled exactly when some reading is empty |
| VitalsForm.InputRange | src/components/VitalsEntryForm.tsx:64-141 | each input's `min` is below its `max`; Triage.ThresholdsInsideInputRanges states where the five ranges lie against the scoring thresholds |
| VitalsForm.ValidAfterChange | src/components/VitalsEntryForm.tsx:31-36 | after an edit the form is complete exactly when the new text and the other four readings are non-empty |
| VitalsForm.PresenceOnly | src/components/VitalsEntryForm.tsx:35-36 | completeness checks presence only, so letters in four of the five readings still enable "Next" |
| RegistrationForm.HandleChange | src/components/PatientRegistrationForm.tsx:30-32 | the edited field takes the new text and every other field is unchanged |
| RegistrationForm.GenderValue | src/components/PatientRegistrationForm.tsx:92-106 | each radio button's value is one of `male`, `female` and `other` |
| RegistrationForm.SelectGender | src/components/PatientRegistrationForm.tsx:88-106 | picking a radio button sets a non-empty allowed gender and changes nothing else |
| RegistrationForm.IsValid | src/components/PatientRegistrationForm.tsx:34 | no ensures of its own: `isValid`; RegistrationForm.NextDisabled and AgeNotChecked state it |
| RegistrationForm.NextDisabled | src/components/PatientRegistrationForm.tsx:34 | "Next" is disabled exactly when some field is empty |
| RegistrationForm.AgeNotChecked | src/components/PatientRegistrationForm.tsx:74-75 | the age input's 0-120 range is not part of completeness, so ages of "200" and "old" both pass |
| Triage.Parse | src/hooks/useAIAssessment.tsx:34-38 | no ensures of its own: the five parses; Triage.ParseTyped and NonNumericReadingNotRejected state what they give |
| Triage.VitalsScore | src/hooks/useAIAssessment.tsx:41-44 | the vital-sign points are at most 2 + 2 + 1 + 3 = 8 |
| Triage.SymptomPoints | src/hooks/useAIAssessment.tsx:47-53 | one symptom is worth at most 3 points |
| Triage.SymptomsScore | src/hooks/useAIAssessment.tsx:50-53 | a symptom list scores at most 3 points per entry |
| Triage.StatusOf | src/hooks/useAIAssessment.tsx:56-64 | high exactly from 7, moderate exactly from 4 to 6, simple exactly below 4 |
| Triage.Recommendation | src/hooks/useAIAssessment.tsx:56-64 | no ensures of its own: the three texts; Triage.AssessReadings states that the text follows the status |
| Triage.Matched | src/hooks/useAIAssessment.tsx:67-71 | the lookup adds at most one medicine per rule |
| Triage.SimpleMedicines | src/hooks/useAIAssessment.tsx:66-76 | a simple case always gets between 1 and 5 medicines |
| Triage.AssessReadings | src/hooks/useAIAssessment.tsx:55-80 | the score is non-negative, the status is its band, the recommendation matches the status, and medicines are listed exactly for simple cases (1 to 5 of them) |
| Triage.Assess | src/hooks/useAIAssessment.tsx:27-80 | no ensures of its own: parse then assess; Triage.Evaluate, Triage.Assessor.AssessPatient and MoreSymptomsNeverLess state it |
| Triage.Evaluate | src/hooks/useAIAssessment.tsx:27-80 | the step-by-step computation returns the assessment the rules define |
| Triage.ScoreVitals | src/hooks/useAIAssessment.tsx:40-44 | the four `if` additions total the vital-sign points |
| Triage.ScoreSeverity | src/hooks/useAIAssessment.tsx:34-53 | the running score after the `forEach` loop is the vitals points plus the symptom points |
| Triage.SymptomsScoreStep | src/hooks/useAIAssessment.tsx:50-53 | each `forEach` step adds exactly that symptom's points |
| Triage.PrescribeSimple | src/hooks/useAIAssessment.tsx:66-76 | the pushes in rule order, with the default when none fires, give the simple-case medicine list |
| Triage.MatchedStep | src/hooks/useAIAssessment.tsx:67-71 | after each rule's push, the rules still to come account for the rest of the list |
| Triage.MoveRule | src/hooks/useAIAssessment.tsx:67-71 | moving one rule's contribution from the pending part to the built part keeps the whole list |
| Triage.MatchedCons | src/hooks/useAIAssessment.tsx:67-71 | the first rule contributes its medicine exactly when its symptom is present |
| Triage.MatchedRulesUnfolded | src/hooks/useAIAssessment.tsx:67-71 | the lookup is the five checks in source order: fever, cough, headache, body pain, acidity |
| Triage.Assessor.constructor | src/hooks/useAIAssessment.tsx:19 | the hook starts not assessing |
| Triage.Assessor.BeginAssessment | src/hooks/useAIAssessment.tsx:22 | the flag is raised when an assessment starts |
| Triage.Assessor.FinishAssessment | src/hooks/useAIAssessment.tsx:27-80 | the flag is lowered and the assessment the rules define is returned |
| Triage.Assessor.AssessPatient | src/hooks/useAIAssessment.tsx:21-85 | a whole `assessPatient` call ends not assessing and returns the rules' assessment |
| Triage.VitalsScoreExtremes | src/hooks/useAIAssessment.tsx:41-44 | vitals score 0 exactly when no condition fires and 8 exactly when all four fire |
| Triage.ThresholdsInsideInputRanges | src/components/VitalsEntryForm.tsx:64-141 | within each input's `min`/`max` the vital rule of lines 41-44 of the assessment hook can both fire and not fire |
| Triage.SymptomPointsTable | src/hooks/useAIAssessment.tsx:47-53 | 3 points exactly for the severe list, 1 exactly for the moderate list, 0 otherwise |
| Triage.SymptomsScoreAppend | src/hooks/useAIAssessment.tsx:50-53 | the symptom score of a concatenation is the sum of the scores |
| Triage.SymptomsScoreOrderFree | src/hooks/useAIAssessment.tsx:50-53 | two lists with the same symptoms and counts, in any order, score the same |
| Triage.RemoveAtMultiset | src/hooks/useAIAssessment.tsx:50-53 | removing one entry removes exactly one occurrence from the multiset |
| Triage.ScoreWithout | src/hooks/useAIAssessment.tsx:50-53 | one entry in the middle of a list contributes exactly its own points |
| Triage.RemoveAtScore | src/hooks/useAIAssessment.tsx:50-53 | a list scores the points of any one entry plus the points of the rest |
| Triage.SplitAt | src/hooks/useAIAssessment.tsx:50-53 | a list is its part before an index, the entry at it, and the part after |
| Triage.SingleScore | src/hooks/useAIAssessment.tsx:51-52 | a one-symptom list scores that symptom's points |
| Triage.StatusMonotone | src/hooks/useAIAssessment.tsx:56-64 | a higher score never gives a lower status |
| Triage.MoreSymptomsNeverLess | src/hooks/useAIAssessment.tsx:41-64 | reporting more symptoms never lowers the score or the status |
| Triage.Medicines | src/hooks/useAIAssessment.tsx:67-71 | the medicine column of the rule table, position by position |
| Triage.MatchedInRuleOrder | src/hooks/useAIAssessment.tsx:67-71 | the medicines come out in rule order, whatever order the symptoms were ticked in |
| Triage.MatchedMembership | src/hooks/useAIAssessment.tsx:67-71 | a medicine is listed exactly when some rule for it has its symptom present |
| Triage.MatchedOrderFree | src/hooks/useAIAssessment.tsx:67-71 | symptom lists with the same members give the same medicines, in the same order |
| Triage.SimpleMedicinesShape | src/hooks/useAIAssessment.tsx:66-76 | the list is the default entry alone exactly when no rule matched, and otherwise just the matches |
| Triage.SimpleMedicinesDistinct | src/hooks/useAIAssessment.tsx:67-76 | no medicine is listed twice, even when a symptom was given twice |
| Triage.MatchedDistinct | src/hooks/useAIAssessment.tsx:67-71 | a rule table with distinct medicines never lists a medicine twice |
| Triage.UnparseableReadingAddsNothing | src/hooks/useAIAssessment.tsx:34-44 | a `NaN` reading scores like a normal one, and all-`NaN` vitals score 0 |
| Triage.UnscoredFormSymptoms | src/components/SymptomsForm.tsx:8-16 | weakness, headache and vomiting are offered by the form but score nothing |
| Triage.HeadacheGetsAspirin | src/hooks/useAIAssessment.tsx:69 | headache alone is simple and gets aspirin |
| Triage.UnofferedKnownSymptoms | src/hooks/useAIAssessment.tsx:47-71 | severe headache, body pain, diarrhea and acidity are scored or treated but never offered by the form |
| Triage.ParseTyped | src/hooks/useAIAssessment.tsx:34-38 | digit-only readings and a one-decimal temperature parse to their exact values |
| Triage.NormalVitalsNoSymptoms | src/hooks/useAIAssessment.tsx:41-76 | normal vitals with no symptoms: simple, score 0, rest and fluids |
| Triage.HighPressureWithFever | src/hooks/useAIAssessment.tsx:41-67 | 150/95 with fever scores 3, is simple, and gets paracetamol |
| Triage.LowOxygenWithCough | src/hooks/useAIAssessment.tsx:44-61 | 92% oxygen with cough scores 4 and is moderate, with no medicines |
| Triage.HighBoundary | src/hooks/useAIAssessment.tsx:51-58 | two severe symptoms (6) are moderate and adding fever (7) makes the case high risk |
| Triage.NonNumericReadingNotRejected | src/hooks/useAIAssessment.tsx:34-44 | a reading starting with a letter is `NaN` and the case is assessed without it, not rejected |
| OfflineSync.Stored | src/hooks/useOfflineSync.tsx:64-67 | a missing store reads as an empty queue never synced, and a present one as itself |
| OfflineSync.Stamp | src/hooks/useOfflineSync.tsx:74-80 | the submission keeps the form data, is stamped with `now`, and its id is exactly `now.toString()`, which reads back as `now` |
| OfflineSync.Enqueue | src/hooks/useOfflineSync.tsx:82 | the queue grows by one at the end, with the earlier entries and the last sync time unchanged |
| OfflineSync.SyncOutcome | src/hooks/useOfflineSync.tsx:96-110 | an offline, busy or empty sync changes nothing, and otherwise the queue is emptied and stamped with `now` |
| OfflineSync.EnqueueAllAppends | src/hooks/useOfflineSync.tsx:74-83 | saves while offline append in order, with nothing lost or reordered |
| OfflineSync.OfflineKeepsQueue | src/hooks/useOfflineSync.tsx:97 | no sync runs while offline |
| OfflineSync.SyncTwice | src/hooks/useOfflineSync.tsx:96-110 | a second sync right after a successful one changes nothing |
| OfflineSync.OnlineSaveClearsAll | src/hooks/useOfflineSync.tsx:74-110 | a save while online and idle leaves an empty queue stamped with `now` |
| OfflineSync.OfflineQueue.constructor | src/hooks/useOfflineSync.tsx:31-51 | starts with the browser's online flag, not syncing, and the counter showing the stored queue's length |
| OfflineSync.OfflineQueue.UpdatePendingCount | src/hooks/useOfflineSync.tsx:59-62 | the counter shows the stored queue's length and nothing else changes |
| OfflineSync.OfflineQueue.SaveOfflineData | src/hooks/useOfflineSync.tsx:69-72 | the store holds the new data and the counter follows it |
| OfflineSync.OfflineQueue.SyncPendingData | src/hooks/useOfflineSync.tsx:96-127 | the store becomes the sync outcome, the counter keeps matching the stored queue, and nothing changes when the sync does not run |
| OfflineSync.OfflineQueue.SaveFormData | src/hooks/useOfflineSync.tsx:74-94 | the store becomes the sync outcome of the queue with the stamped submission appended |
| OfflineSync.OfflineQueue.HandleOnline | src/hooks/useOfflineSync.tsx:38-41 | coming online sets the flag, the store becomes the sync outcome, and the counter keeps matching it |
| OfflineSync.OfflineQueue.HandleOffline | src/hooks/useOfflineSync.tsx:43-45 | going offline clears the flag, touches nothing else, and the counter keeps matching the store |
| PatientDashboard.FindIndex | src/components/PatientDashboard.tsx:77 | `findIndex`: -1 exactly when absent, and otherwise the first position holding the step |
| PatientDashboard.StepIndex | src/components/PatientDashboard.tsx:69-77 | no ensures of its own: `getStepIndex`; PatientDashboard.FindIndex and ProgressValues state its values |
| PatientDashboard.Progress | src/components/PatientDashboard.tsx:78-79 | no ensures of its own: the progress bar; PatientDashboard.ProgressValues and ProgressOfIndex state its values |
| PatientDashboard.ProgressValues | src/components/PatientDashboard.tsx:69-79 | the progress bar reads 20, 40, 60, 80 and 100 along the five steps, and 0 on the completed screen |
| PatientDashboard.ProgressOfIndex | src/components/PatientDashboard.tsx:77-79 | on every listed step the bar is between 20 and 100 and grows by 20 per step |
| PatientDashboard.ShownOn | src/components/PatientDashboard.tsx:229-261 | no ensures of its own: the step whose page shows a button; PatientDashboard.Navigate and NavigationIsOneStep state it |
| PatientDashboard.Target | src/components/PatientDashboard.tsx:229-261 | no ensures of its own: the step a button sets; PatientDashboard.Navigate and NavigationIsOneStep state it |
| PatientDashboard.Navigate | src/components/PatientDashboard.tsx:229-261 | a button moves to its target only from the step that shows it |
| PatientDashboard.NavigationIsOneStep | src/components/PatientDashboard.tsx:229-261 | every Next/Back button moves one step forward or back, except the video page's Back, which goes back two |
| PatientDashboard.NoExitByNavigation | src/components/PatientDashboard.tsx:250-256 | the assessment and completed screens have no navigation button |
| PatientDashboard.RouteAfterAssessment | src/components/PatientDashboard.tsx:166-182 | the next step is the video exactly for a moderate case, and completed otherwise |
| PatientDashboard.VideoExactlyForModerateScores | src/components/PatientDashboard.tsx:166-182 | a case goes to video exactly when its score is 4, 5 or 6 |
| PatientDashboard.Dashboard.constructor | src/components/PatientDashboard.tsx:47-67 | starts at registration with an empty form, no result, no case id, not assessing |
| PatientDashboard.Dashboard.HandlePatientInfoUpdate | src/components/PatientDashboard.tsx:86-88 | only the patient section of the form changes |
| PatientDashboard.Dashboard.HandleVitalsUpdate | src/components/PatientDashboard.tsx:90-92 | only the vitals section of the form changes |
| PatientDashboard.Dashboard.HandleSymptomsUpdate | src/components/PatientDashboard.tsx:94-96 | only the symptom list changes |
| PatientDashboard.Dashboard.Press | src/components/PatientDashboard.tsx:229-261 | the step follows the navigation rule and nothing else changes |
| PatientDashboard.Dashboard.HandleAssessment | src/components/PatientDashboard.tsx:147-191 | on failure the app stays on the assessment screen, and on success it keeps the case id and the rules' assessment and routes on its status |
| PatientDashboard.Dashboard.RecordAssessment | src/components/PatientDashboard.tsx:151-182 | assesses the current form, keeps the id and the result, routes on the status, and ends not assessing |
| PatientDashboard.Dashboard.KeepResult | src/components/PatientDashboard.tsx:153-182 | stores the result and moves to the step its status routes to |
| PatientDashboard.Dashboard.HandleVideoComplete | src/components/PatientDashboard.tsx:193-209 | always ends on the completed screen, with nothing else changed |
| PatientDashboard.Dashboard.StartNewCase | src/components/PatientDashboard.tsx:211-220 | back to registration with an empty form, no result and no case id |
| DoctorDashboard.StatusBadge | src/components/DoctorDashboard.jsx:144-155 | yellow "Moderate" for moderate, red "High Risk" for high, green "Prescribed" for prescribed, each colour for that status only, and grey otherwise with the raw status text |
| DoctorDashboard.StatusBadgeInjective | src/components/DoctorDashboard.jsx:144-155 | different statuses never look the same |
| DoctorDashboard.Attention | src/components/DoctorDashboard.jsx:36 | exactly the moderate and high-risk cases are kept |
| DoctorDashboard.InsertNewestFirst | src/components/DoctorDashboard.jsx:37 | inserting keeps newest-first order and adds exactly that case |
| DoctorDashboard.PrependNewest | src/components/DoctorDashboard.jsx:37 | a case no older than the head may go in front |
| DoctorDashboard.SortNewestFirst | src/components/DoctorDashboard.jsx:37 | the ordering is newest first and a permutation of the input |
| DoctorDashboard.IsCaseList | src/components/DoctorDashboard.jsx:30-40 | no ensures of its own: what the query may answer; DoctorDashboard.CaseListExists and CaseListContents state it |
| DoctorDashboard.CaseListExists | src/components/DoctorDashboard.jsx:30-40 | the query's answer exists: the attention cases, newest first |
| DoctorDashboard.CaseListContents | src/components/DoctorDashboard.jsx:30-40 | the list shows exactly the cases needing attention, each badged "Moderate" or "High Risk" |
| DoctorDashboard.TrimAll | src/components/DoctorDashboard.jsx:77 | `map(trim)` trims each part in place |
| DoctorDashboard.NonEmpty | src/components/DoctorDashboard.jsx:77 | `filter` keeps only non-empty names |
| DoctorDashboard.TrimAllCommaFree | src/components/DoctorDashboard.jsx:77 | trimmed parts stay free of commas and are trimmed |
| DoctorDashboard.NonEmptyClean | src/components/DoctorDashboard.jsx:77 | the filtered names are clean: non-empty, comma-free and trimmed |
| DoctorDashboard.ParseMedicines | src/components/DoctorDashboard.jsx:77 | every medicine read from the field is a clean name |
| DoctorDashboard.FormatMedicines | src/components/DoctorDashboard.jsx:61 | no ensures of its own: `join(', ')`; DoctorDashboard.ParseFormatMedicines and SplitJoined state that the field reads back as the list |
| DoctorDashboard.Spaced | src/components/DoctorDashboard.jsx:61 | every part after the first carries the one space of the `", "` separator |
| DoctorDashboard.SplitJoined | src/components/DoctorDashboard.jsx:61-77 | splitting a `", "`-joined list on commas gives the first name and then each name with its leading space |
| DoctorDashboard.TrimSpaced | src/components/DoctorDashboard.jsx:77 | trimming the spaced names restores them |
| DoctorDashboard.TrimOneSpace | src/components/DoctorDashboard.jsx:77 | trimming one leading space off a trimmed name gives the name |
| DoctorDashboard.NonEmptyKeepsAll | src/components/DoctorDashboard.jsx:77 | filtering a list without empty names keeps it whole |
| DoctorDashboard.ParseFormatMedicines | src/components/DoctorDashboard.jsx:61-77 | joining clean names with `", "` and reading them back gives the same list |
| DoctorDashboard.ParseMedicinesStable | src/components/DoctorDashboard.jsx:61-77 | reading, re-joining and reading again gives the first reading |
| DoctorDashboard.FormFromCase | src/components/DoctorDashboard.jsx:58-63 | missing prescription, notes and medicines show as empty fields, present prescription and notes are shown as is, and present medicines are shown joined with `", "` |
| DoctorDashboard.SelectedMedicinesReadBack | src/components/DoctorDashboard.jsx:61-77 | prescribing straight after selecting a case sends back its stored medicines unchanged |
| DoctorDashboard.PrescribeRequest | src/components/DoctorDashboard.jsx:65-88 | no ensures of its own: the guard and the update; DoctorDashboard.PrescribeGuard and BlankPrescriptionRefused state it |
| DoctorDashboard.PrescribeGuard | src/components/DoctorDashboard.jsx:65-88 | an update is sent exactly when a case is selected and the prescription is not blank, and it carries the form's text, the parsed medicines and status "prescribed" |
| DoctorDashboard.BlankPrescriptionRefused | src/components/DoctorDashboard.jsx:66 | an all-space prescription sends nothing |
| DoctorDashboard.Dashboard.constructor | src/components/DoctorDashboard.jsx:16-22 | starts with no cases, no selection, empty fields, loading, not prescribing |
| DoctorDashboard.Dashboard.FetchCases | src/components/DoctorDashboard.jsx:24-51 | the list becomes the query's answer (exactly the stored cases needing attention) or stays as it was when the query fails, and loading ends either way |
| DoctorDashboard.Dashboard.HandleCaseSelect | src/components/DoctorDashboard.jsx:58-63 | the case is selected and the form shows it, and the list is unchanged |
| DoctorDashboard.Dashboard.HandlePrescribe | src/components/DoctorDashboard.jsx:65-142 | refused requests change nothing; after a sent one the list is fetched again and the form cleared on success, the form kept on failure, and it is never left prescribing |
| DoctorDashboard.Dashboard.Send | src/components/DoctorDashboard.jsx:75-141 | the state after the database call, by its outcome |
| VideoRecording.FormatTime | src/components/VideoRecordingComponent.tsx:72-76 | no ensures of its own: `formatTime`; VideoRecording.FormatTimeShape, ParseFormatTime and FormatTimeInjective state it |
| VideoRecording.PadStart | src/components/VideoRecordingComponent.tsx:75 | `padStart` keeps long text and left-fills short text with the fill character to the width |
| VideoRecording.Repeat | src/components/VideoRecordingComponent.tsx:75 | `n` copies of one character |
| VideoRecording.TwoDigitSeconds | src/components/VideoRecordingComponent.tsx:74-75 | the seconds part is always two digits and denotes the seconds |
| VideoRecording.OneDigit | src/components/VideoRecordingComponent.tsx:75 | a number below ten prints as one digit |
| VideoRecording.TwoDigits | src/components/VideoRecordingComponent.tsx:75 | a number from 10 to 99 prints as its two digits |
| VideoRecording.TwoDigitsValue | src/components/VideoRecordingComponent.tsx:75 | two digits denote ten times the first plus the second |
| VideoRecording.FormatTimeShape | src/components/VideoRecordingComponent.tsx:72-76 | the display is the minutes, a colon and two seconds digits |
| VideoRecording.ParseTimeOf | src/components/VideoRecordingComponent.tsx:72-76 | reading `m:ss` gives `60 * m + ss` |
| VideoRecording.ReadTwoParts | src/components/VideoRecordingComponent.tsx:72-76 | the two parts of a display give the seconds they denote |
| VideoRecording.NoColonInDigits | src/components/VideoRecordingComponent.tsx:75 | digits never contain the colon |
| VideoRecording.ParseFormatTime | src/components/VideoRecordingComponent.tsx:72-76 | the display can be read back as the exact number of seconds |
| VideoRecording.FormatTimeInjective | src/components/VideoRecordingComponent.tsx:72-76 | different durations never display the same |
| VideoRecording.Recorder.constructor | src/components/VideoRecordingComponent.tsx:17-19 | starts at 0 seconds with no timer |
| VideoRecording.Recorder.StartRecording | src/components/VideoRecordingComponent.tsx:21-42 | when the camera starts, the time resets to 0 and the timer runs, and otherwise nothing changes |
| VideoRecording.Recorder.Tick | src/components/VideoRecordingComponent.tsx:27-29 | a tick adds one second exactly while the timer runs |
| VideoRecording.Recorder.StopRecording | src/components/VideoRecordingComponent.tsx:44-49 | stopping halts the timer and keeps the time shown |
| AppScreen.RenderContent | src/pages/Index.tsx:20-37 | a doctor's dashboard exactly for a signed-in doctor in the dashboard state, the intake dashboard exactly for another signed-in role there, the login page exactly in the login state, and the home page otherwise |
| AppScreen.Target | src/pages/Index.tsx:15-18 | no ensures of its own: the state each callback sets; AppScreen.Fire and the IndexPage handlers state it |
| AppScreen.Offers | src/pages/Index.tsx:22-35 | no ensures of its own: which page is handed which callback; AppScreen.Fire and DashboardOnlyAfterLogin state it |
| AppScreen.Fire | src/pages/Index.tsx:15-37 | a callback sets its target state exactly when the page on screen offers it, and is impossible otherwise |
| AppScreen.DashboardOnlyAfterLogin | src/pages/Index.tsx:13-18 | a run that reaches the dashboard state from elsewhere contains the login page's success callback |
| AppScreen.NoDashboardWithoutUser | src/pages/Index.tsx:21-36 | without a signed-in user only the home or login page is shown |
| AppScreen.SignedOutDashboardShowsHome | src/pages/Index.tsx:16-35 | without a user a login success reaches the dashboard state but shows the home page, whose button returns to login |
| AppScreen.LogoutGoesHome | src/pages/Index.tsx:18-31 | logging out of either dashboard shows the home page |
| AppScreen.IndexPage.constructor | src/pages/Index.tsx:13 | starts in the home state, showing the home page to anyone |
| AppScreen.IndexPage.HandleLoginClick | src/pages/Index.tsx:15 | moves to the login state |
| AppScreen.IndexPage.HandleLoginSuccess | src/pages/Index.tsx:16 | moves to the dashboard state |
| AppScreen.IndexPage.HandleBackToHome | src/pages/Index.tsx:17 | moves to the home state |
| AppScreen.IndexPage.HandleLogout | src/pages/Index.tsx:18 | moves to the home state |

## Left out

- Numbers.ParseFloat: exponents (`1e3`), `Infinity` and the rounding of binary floating point are not modelled. Readings are exact decimals, which compare with the source's thresholds (`> 100.4`) the same way for the short decimal text the form produces.
- Numbers.ParseInt: `parseInt` without a radix reads a `0x` prefix as hexadecimal. The model reads `"0x10"` as 0.
- Strings.Trim: only space, tab, line feed and carriage return count as white space. JavaScript's `trim` also removes the other Unicode spaces.
- PatientDashboard.ProgressValues: the source computes the percentage in floating point, so it can show values such as 60.00000000000001. The model uses exact integers.
- OfflineSync.Stamp: `Date.now()` is read twice, for the timestamp and for the id, and the two reads can differ by a millisecond. The model reads the clock once (`now`).
- OfflineSync.OfflineQueue.SyncPendingData: the `try`/`catch` around the store write is not modelled, because the write is taken as always succeeding. The same holds for the `JSON.stringify`/`JSON.parse` round trip through `localStorage`, which is taken as the identity.
- OfflineSync.OfflineQueue.HandleOnline: the 'online' listener is registered once, on mount (src/hooks/useOfflineSync.tsx:37-57), so its `syncPendingData` is a stale closure that sees the flags of the first render. When the page was opened offline, that call returns at line 97 and does nothing. The queue is then synced by the auto-sync effect (lines 130-135) one second later. The model syncs at once with the current flags. It gives the state the auto-sync reaches, stamped with an earlier `now`.
- OfflineSync: the auto-sync effect (src/hooks/useOfflineSync.tsx:130-135) is not a separate operation of the model. It runs the sync again one second after the flags change, and a repeated sync changes nothing (OfflineSync.SyncTwice). The listener registration and removal are not modelled.
- Triage.Assessor.AssessPatient: the 2-second simulated delay is not modelled, and neither is the `catch` branch, which the pure scoring never reaches.
- PatientDashboard.Dashboard.HandleAssessment: React state updates are applied at once. The model does not capture stale closures or batching. The database writes are not modelled (creating the patient and case, storing the assessment, `handleVideoComplete`'s video URL). Only their success or failure is a parameter (`created`).
- PatientDashboard.Dashboard.HandleVideoComplete: the database update with the video URL is not modelled (no database in the model), only the step change.
- DoctorDashboard.Dashboard.HandlePrescribe: the SMS notification and its toasts are not modelled, since they do not change the dashboard's state. The stored cases and the refetch's answer are parameters, and a failed fetch keeps the old list.
- DoctorDashboard: `formatDate` and the plain text setters of the form fields (`setPrescription`, `setMedicines`, `setDoctorNotes` on keystrokes) are not modelled.
- AppScreen: the authentication context (src/contexts/AuthContext.tsx) and its login and logout calls are not part of this model. The signed-in user is a parameter.
- VideoRecording.Recorder.StartRecording: starting twice without stopping leaks the first interval in the source, and both intervals then tick. The model keeps one timer flag. The media recorder, preview and upload are not modelled.
- VitalsForm.InputRange: the browser does not enforce the `min`/`max` bounds on typed input, and the model records only that each range is well formed.
- Toasts, translations, icons and layout are presentation only and are not modelled.
