# Clinic triage queue — a Dafny model

This project models the logic of a clinic patient-intake application. Patients
register through a four-step form wizard. The backend scores each intake, keeps
an in-memory queue ordered by triage score and hands out patient ids. Staff
watch the queue on a dashboard and mark patients completed or cancelled.

Modules, one per part of the program:

- `Triage` (`triage_scoring.dfy`): the deterministic fallback triage scorer and
  the keyword advisal message.
- `TriageQueue` (`triage_queue.dfy`): the queue as a class `Queue`. It holds the
  list of patient records (`patients`) and the id counter (`nextId`). It covers
  intake, the list and stats endpoints, complete and cancel. `QueueScenario`
  is a client: it queues three patients of urgency 2, 9 and 5, checks they are
  served 9, 5, 2, completes the first one, and checks that completing it again
  is not found.
- `Dashboard` (`dashboard.dfy`): the triage badge and urgency colour
  classifiers.
- `PatientForm` (`patient_form.dfy`): the wizard as a class `Wizard` with
  `step`, `formData`, `submitting`, `result` and `error`. Beside it are the pure
  field updater, the symptoms text that is sent, and the button guards.
- `Text` (`text.dfy`): the string operations the code relies on. These are
  Python's `lower` and substring `in`, and JavaScript's `trim`, `parseInt` and
  number printing.
- `Wrappers` (`wrappers.dfy`): `Option`.

The class invariant `Queue.Valid` states what intake, complete and cancel
keep true:

- the list is in queue order: descending score, and equal scores in arrival
  order (smaller id first);
- ids are distinct and below `nextId`;
- every record is waiting;
- positions are exactly `1..n`.

Python's `list.sort` is stable. The model writes it as a stable insertion sort
(`StableSortDesc`). For an already-sorted list with one record appended, that
sort places the new record after every record whose score is at least as high
(`SortAfterAppend`).

The model follows the code, including in these behaviours, which a reader
might expect otherwise:

- Intake checks only that the fields are present. It does not check that
  urgency lies in 1..10 or that the duration is in range.
- The fallback score is not clamped to 0..100. For urgency 1..10 and 10..60
  minutes it ranges over 0..155 (`FallbackScoreRange`).
- Completed and cancelled records are deleted from the list, not kept with a
  terminal status. Completing or cancelling such an id again is therefore "not
  found". No invalid-transition error exists.
- Positions are stored on the records and rewritten after every change.
- The estimated wait is the sum of the durations of the other records with a
  strictly higher score. Earlier arrivals with the same score are served first
  but are not counted.

## Model

| member | source | states |
|---|---|---|
| `Triage.FallbackTriage` | backend/app.py:93-116 | The classification is always "routine", with the fixed reasoning and priority factors. The score is ten points per urgency level, shifted by between -10 and +55. |
| `Triage.FallbackScoreTable` | backend/app.py:97-109 | Score = 10·urgency + 50 for "emergency", + 20 for "follow-up", − 10 for "advisal", + 0 for any other type (compared lower-cased), plus 5 when the duration is at most 15. |
| `Triage.FallbackScoreStep` | backend/app.py:97 | For a fixed type and duration, one more urgency level adds exactly 10. |
| `Triage.FallbackScoreMonotone` | backend/app.py:97-109 | The score never decreases as urgency rises. |
| `Triage.FallbackCaseInsensitive` | backend/app.py:100-105 | Visit types that differ only in case give the same analysis. |
| `Triage.FallbackScoreRange` | backend/app.py:93-116 | For urgency 1..10 and duration 10..60 the score lies in 0..155, and both ends are reached (no clamping). |
| `Triage.AdvisalChoice` | backend/app.py:155-171 | About the fallback advisal `AdvisalFallback`: empty symptoms give the monitoring message. Otherwise the message is chosen by which keyword occurs in the lower-cased text, in priority fever, pain, cough or cold, else general. Each message is picked exactly when its condition holds. |
| `Triage.AdvisalCaseInsensitive` | backend/app.py:162-171 | Symptoms that differ only in case get the same message. |
| `Text.ContainsIff` | backend/app.py:164-168 | The substring test is true exactly when the word occurs at some offset. |
| `TriageQueue.FirstMissingFrom` | backend/app.py:212-215 | Returns the first field from a given index on that is absent, with every earlier one present; `None` exactly when all from there on are present. |
| `TriageQueue.FirstMissing` | backend/app.py:212-215 | `None` exactly when all seven required fields are present. |
| `TriageQueue.FindMissingField` | backend/app.py:212-215 | The validation loop returns the first missing field in the order name, email, phone, symptoms, urgencyLevel, visitType, estimatedDuration. |
| `TriageQueue.NewRecordFromRequest` | backend/app.py:236-253 | A complete request becomes a record carrying the given id and the seven request fields. Its status is waiting, its position 0 and its classification "routine". Its score is the fallback score, 10 points per urgency level shifted by -10..+55. Its advisal is the fallback advisal for its symptoms and visit type. |
| `TriageQueue.InsertionPoint` | backend/app.py:256-259 | The new record's index: every record in front has a score at least as high, and the record just behind has a lower score. |
| `TriageQueue.InsertAfterTiesShape` | backend/app.py:256-259 | After insertion, the records in front keep their places, the new record is at the insertion point, and the rest move back one. |
| `TriageQueue.InsertAfterTiesMultiset` | backend/app.py:256 | The new list holds the old records plus exactly the new one. |
| `TriageQueue.InsertAfterTiesSorted` | backend/app.py:256-259 | A score-sorted list stays sorted. The new record sits behind every record with an equal or higher score and in front of every lower one. |
| `TriageQueue.SortSortedIsIdentity` | backend/app.py:259 | Sorting an already-sorted list leaves it unchanged. |
| `TriageQueue.SortAfterAppend` | backend/app.py:256-259 | Appending to a sorted list and then sorting is the same as inserting the new record after its ties. |
| `TriageQueue.StableSortDescCorrect` | backend/app.py:259 | The stable sort `StableSortDesc` returns a permutation of its input in non-increasing score order. |
| `TriageQueue.InsertKeepsWellFormed` | backend/app.py:236-259 | A record carrying the next id enters the queue without breaking queue order (score, then arrival), distinct ids or "all waiting". |
| `TriageQueue.Renumbered` | backend/app.py:262-263 | Same length, positions exactly 1..n in list order, and every other field of every record unchanged. |
| `TriageQueue.RenumberedKeepsWellFormed` | backend/app.py:262-263 | Rewriting positions changes nothing the queue order depends on. |
| `TriageQueue.AdmissionFacts` | backend/app.py:236-271 | After the sort and renumbering, the queue is well formed. The new record is at its insertion point, with position one more than that index. Its wait is the same as computed over the old list. |
| `TriageQueue.PositionCountsPredecessors` | backend/app.py:262-263 | In a queue-ordered list, a record's position is 1 + the number of records served before it. |
| `TriageQueue.OutrankingWaitConcat` | backend/app.py:265-271 | The wait sum `OutrankingWait` splits over concatenation: the wait over a + b is the wait over a plus the wait over b. |
| `TriageQueue.EstimatedWait` | backend/app.py:265-271 | The loop returns the sum of the durations of the records other than the given id whose score is strictly higher. |
| `TriageQueue.OutrankingWaitInsert` | backend/app.py:265-271 | The newly inserted record does not count towards its own wait. |
| `TriageQueue.NoOutrankerNoWait` | backend/app.py:266-271 | When no other record has a strictly higher score, the wait is 0. |
| `TriageQueue.OutrankingWaitBounds` | backend/app.py:266-271 | With non-negative durations, the wait lies between 0 and the total duration of the queue. |
| `TriageQueue.IndexOfId` | backend/app.py:326 | Finds the first record with the id; `None` exactly when no record has it. |
| `TriageQueue.WithoutMarked` | backend/app.py:330-354 | About the status filter `Without` (as used by complete and cancel): marking one record of an all-waiting list and filtering out that status removes exactly that record and keeps the order of the rest. |
| `TriageQueue.RemoveKeepsWellFormed` | backend/app.py:333-338 | Removing a record keeps the queue well formed, and its id no longer occurs. |
| `TriageQueue.RemovalShiftsPositions` | backend/app.py:336-338 | After a removal, records in front keep their position, and every record behind moves up exactly one. |
| `TriageQueue.QueueStats` | backend/app.py:362-376 | Over the waiting records only: `totalWaiting` is their number and `totalWaitTime` the sum of their durations. `low`, `moderate` and `high` count those with urgency 1-3, 4-7 and 8-10, and together never exceed `totalWaiting`. `avgWaitTime` is 0 for no waiting record; otherwise avg × totalWaiting = totalWaitTime. |
| `TriageQueue.Average` | backend/app.py:366-370 | The average is the exact quotient: avg × count = total. |
| `TriageQueue.BucketsAtMostTotal` | backend/app.py:372-374 | The urgency buckets 1-3, 4-7 and 8-10 are disjoint. |
| `TriageQueue.BucketsPartition` | backend/app.py:372-374 | With every urgency in 1..10, the three buckets together count every record. |
| `TriageQueue.StatsBucketsCoverQueue` | backend/app.py:365-374 | low + moderate + high = totalWaiting when every urgency is in 1..10. |
| `TriageQueue.WaitingOnly` | backend/app.py:365 | The filter's result is no longer than its input and every record in it is waiting. |
| `TriageQueue.WaitingOnlySubset` | backend/app.py:365 | A record is in the filtered list exactly when it is in the input and waiting. |
| `TriageQueue.WaitingOnlyAllWaiting` | backend/app.py:365 | In an all-waiting list, the waiting filter keeps every record. |
| `TriageQueue.EmptyStats` | backend/app.py:365-376 | An empty queue reports 0 waiting, 0 average and 0 in every bucket. |
| `TriageQueue.RemovalLowersWaiting` | backend/app.py:330-369 | Completing or cancelling a queued record lowers `totalWaiting` by exactly one. |
| `TriageQueue.Queue.constructor` | backend/app.py:29-30 | The queue starts empty with next id 1. |
| `TriageQueue.Queue.Renumber` | backend/app.py:262-263 | The positions loop gives record i the position i + 1 and changes nothing else. |
| `TriageQueue.Queue.Intake` | backend/app.py:203-308 | A request missing a field is rejected, naming the first missing field, and neither the list nor the counter changes. Otherwise the record gets id = old next id and the counter grows by one. The record is inserted after its ties, the list is renumbered, and the reply carries the record with its position and its estimated wait. The invariant is kept. |
| `TriageQueue.Queue.ListPatients` | backend/app.py:313-319 | Returns the queue and its length. |
| `TriageQueue.Queue.GetStats` | backend/app.py:362-376 | The stats of the current queue; every queued record counts as waiting. |
| `TriageQueue.Queue.Complete` | backend/app.py:321-340 | An unknown id is not found and nothing changes. Otherwise exactly that record is removed and returned marked completed, the rest keep their order and are renumbered, the id is gone, and the invariant is kept. |
| `TriageQueue.Queue.Cancel` | backend/app.py:342-360 | An unknown id is not found and nothing changes. Otherwise exactly that record is removed, the rest keep their order and are renumbered, the id is gone, and the invariant is kept. |
| `Dashboard.TriageBadge` | frontend/src/AdminDashboard.jsx:84-90 | CRITICAL exactly when score ≥ 80, URGENT for 60..79, MODERATE for 40..59, ROUTINE for 20..39, LOW below 20. |
| `Dashboard.BadgeColors` | frontend/src/AdminDashboard.jsx:85-89 | Each badge label comes with its fixed colour. |
| `Dashboard.BadgeBoundaries` | frontend/src/AdminDashboard.jsx:85-89 | 80 gives CRITICAL and 79 URGENT; 60 gives URGENT and 59 MODERATE; 40 gives MODERATE and 39 ROUTINE; 20 gives ROUTINE and 19 LOW. |
| `Dashboard.BadgeMonotone` | frontend/src/AdminDashboard.jsx:84-90 | A higher score never shows a lower-ranked badge. |
| `Dashboard.UrgencyColor` | frontend/src/AdminDashboard.jsx:78-82 | Green exactly for levels ≤ 3, yellow for 4..7, red above 7. |
| `Dashboard.UrgencyColorMatchesStats` | frontend/src/AdminDashboard.jsx:78-82 | On levels 1..10, green, yellow and red are exactly the stats endpoint's low, moderate and high buckets. |
| `PatientForm.FormUrgencyColor` | frontend/src/PatientForm.jsx:94-98 | The form's copy of the colour rule: for a number, green exactly for levels ≤ 3 and yellow exactly for 4..7, as on the dashboard; red for `NaN`, which fails both comparisons. |
| `PatientForm.SliderColour` | frontend/src/PatientForm.jsx:94-98 | After the slider (line 24) reports the decimal text of n, the form shows the dashboard's colour for n. |
| `PatientForm.WithField` | frontend/src/PatientForm.jsx:20-26 | The named field takes the value, parsed with `parseInt` for urgency and duration. Every other field is unchanged. |
| `Text.ParseIntRoundTrip` | frontend/src/PatientForm.jsx:24 | `parseInt` gives back every integer from its decimal text. |
| `Text.ParseIntNoDigits` | frontend/src/PatientForm.jsx:24 | Text with no decimal digit parses to `NaN`. |
| `PatientForm.SliderStoresNumber` | frontend/src/PatientForm.jsx:24 | A numeric input that reports the decimal text of n stores n. |
| `PatientForm.SymptomsPayload` | frontend/src/PatientForm.jsx:56 | The symptoms text sent has no whitespace at either end and is no longer than purpose + space + symptoms. |
| `PatientForm.SymptomsPayloadJoins` | frontend/src/PatientForm.jsx:56 | A purpose and symptoms with no whitespace at the outer ends are sent joined by exactly one space. |
| `PatientForm.SymptomsPayloadWithoutPurpose` | frontend/src/PatientForm.jsx:56 | With an empty purpose, the trimmed symptoms are sent. |
| `PatientForm.SymptomsPayloadWithoutSymptoms` | frontend/src/PatientForm.jsx:56 | With empty symptoms, the trimmed purpose is sent. |
| `Text.TrimIdempotent` | frontend/src/PatientForm.jsx:56 | Trimming twice is the same as trimming once. |
| `PatientForm.PayloadOf` | frontend/src/PatientForm.jsx:52-60 | The request body copies name, email, phone, urgency, visit type and duration from the form. Its symptoms are the joined and trimmed purpose and symptoms, and just the trimmed symptoms when the purpose is empty. |
| `PatientForm.FailureMessage` | frontend/src/PatientForm.jsx:65-72 | A thrown error shows its own message. A rejected reply shows the server's non-empty `error`, else "Failed to submit"; that message is never empty. |
| `PatientForm.SubmitGuard` | frontend/src/PatientForm.jsx:659 | Submit is disabled while submitting and while a result is held, and enabled otherwise. |
| `PatientForm.GuardsStartDisabled` | frontend/src/PatientForm.jsx:5-14 | On the default form, step 1's Next and step 2's Continue are both disabled. |
| `PatientForm.GuardsFollowTheirFields` | frontend/src/PatientForm.jsx:263 | Non-empty name, email and phone enable step 1's Next. Step 2's Continue is enabled exactly when the purpose is non-empty. Editing other fields leaves both guards as they were. |
| `PatientForm.NavigationStaysInForm` | frontend/src/PatientForm.jsx:28-38 | From steps 1..4, any sequence of Next and Back stays in 1..4, so only a submit reaches 5. |
| `PatientForm.ForwardReachesReview` | frontend/src/PatientForm.jsx:28-32 | Enough presses of Next reach step 4 and stay there. |
| `PatientForm.Wizard.constructor` | frontend/src/PatientForm.jsx:4-18 | Starts at step 1 with the default form, nothing submitting, and no result or error. |
| `PatientForm.Wizard.HandleChange` | frontend/src/PatientForm.jsx:20-26 | Only the form changes, by the field updater. |
| `PatientForm.Wizard.HandleNext` | frontend/src/PatientForm.jsx:28-32 | The step goes up by one when below 4 and is unchanged otherwise. Nothing else changes. |
| `PatientForm.Wizard.HandleBack` | frontend/src/PatientForm.jsx:34-38 | The step goes down by one when above 1 and is unchanged otherwise. Nothing else changes. |
| `PatientForm.Wizard.HandleSubmit` | frontend/src/PatientForm.jsx:40-76 | Sends the payload built from the form. An accepted reply is stored, the step becomes 5 and Submit becomes disabled. A failure stores its message, clears the result and keeps the step. `submitting` is false afterwards. |
| `PatientForm.Wizard.HandleStartNew` | frontend/src/PatientForm.jsx:78-92 | Back to step 1 with no result, no error and the default form (urgency 5, "follow-up", 30 minutes, empty text). Unless a request is in flight, Submit is enabled again. |

## Left out

- The language-model scorer and advisal (backend/app.py:32-91, 118-153) call an external service. Intake uses the fallback scorer and fallback advisal, which is the path taken when no model is configured.
- Email: sending the visit summary and composing its body (backend/app.py:173-201, 273-294) are network I/O. The `emailSent` field of the intake reply is not modelled.
- HTTP plumbing: routing, request and JSON decoding, status codes, CORS, environment loading and the health check. Replies are datatypes. The catch-all 500 reply for an exception inside intake is not modelled, because with typed fields no modelled step can raise.
- Dynamic typing: request fields are typed values (text for text fields, integers for urgency and duration). A field holding JSON of another type is not modelled.
- Timestamps (`timestamp`, `completedAt`) are not modelled, because they come from the clock.
- Concurrency between request handlers: operations are sequential calls on one `Queue` object.
- `TriageQueue.QueueStats`: `avgWaitTime` is an exact real quotient. The float rounding of Python's division is not modelled.
- `Text.Lower`: only ASCII letters are lower-cased. Python's `lower` also maps non-ASCII letters.
- `Text.ParseInt`: integers are exact. JavaScript's loss of precision on numerals above 2^53 is not modelled.
- `TriageQueue.Queue.Intake`: the handler returns the very record it queued. Python shares that record with the list, so it carries the renumbered position. The model gets the same record by looking it up by id.
- `PatientForm.WithField`: the form has eight fields but only seven inputs report change events. `visitType` has no input; it is only set in the initial and reset state. `HandleChange(VisitType, _)` therefore matches no change event of the page. A change event for a name outside the eight fields, which would add a new key, is not modelled.
- `PatientForm.Wizard.HandleSubmit`: the network round trip is a parameter (`ServerReply`). The interval during which `submitting` is true and the request is in flight is not observable in the model. React's batching of state updates is not modelled either, because only the state after the handler finishes is observable.
- Presentation: rendering, styling, `progressPercentage` (float arithmetic), the dashboard's fetch calls, 5-second polling and confirmation dialog. The view toggle in frontend/src/App.jsx and the logo markup in frontend/src/components/AIDELogo.jsx are also left out.
