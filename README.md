# Academic Rescue: the assessment form and the view/session state, in Dafny

Academic Rescue is a single-page application in which a student signs in,
fills a three-step self-assessment (details, per-subject marks with backlog
flags, wellbeing) and receives a risk analysis and rescue plan generated by
a hosted AI service. This project models the two pieces of that application
that hold logic of their own and proves what they promise.

- `types.dfy` (module `Types`): the records of `types.ts` — subject marks,
  the student's self-report, the risk analysis with its `High | Medium | Low`
  level. Sliders produce integers, so every number is an `int`.
- `student_form.dfy` (module `StudentForm`): the assessment form of
  `components/StudentForm.tsx`. The subject list editor (append a default
  row, remove a row with `splice(index, 1)`, merge a partial update into a
  row) and the Previous / Next-or-Submit buttons are methods of the class
  `AssessmentForm`, whose fields are the component state `step` and
  `formData`. The two figures shown above the subject list, the rounded
  average mark and the backlog count, are functions over the subject list,
  with lemmas that bound them and say how each editing operation changes
  them.
- `app.dfy` (module `App`): the top-level state of `App.tsx` — the current
  view among six, the signed-in user, the submitted data, its analysis and
  the loading flag — as the class `AppState` with one method per handler.
  Two ghost fields record the data of the submission in flight and the
  data the current analysis was generated for, and the predicate `Consistent` states the invariant every reachable state
  keeps: an analysis always belongs to submitted data, the assessment view
  is only shown to a signed-in user, while a submission is in flight the
  stored data is the data submitted, and the results view pairs the
  submitted data with the analysis generated for exactly that data.

Submission is asynchronous in the source. It is modelled as two transitions,
`BeginSubmission` (loading starts, the data is stored) and
`FinishSubmission` (the service's reply, an input here, is applied and
loading ends), composed by `SubmitAssessment`. The only caller of a
submission is the form's primary button, which is disabled while loading,
so a submission starts only when none is in flight, and the reply always
belongs to the data stored by the start. Any other transition may run
between the two halves, as a click on the navigation bar can while the
request is pending; the contracts of both halves hold regardless.

The assessment form is mounted afresh each time the assessment view is
shown, so each visit starts from the `AssessmentForm` constructor: step 1
and the default data. The form's `isLoading` is the application's loading
flag, passed to the button methods as a parameter.

No navigation control of the application requests the results view (the
navigation bar offers landing, assessment, mentor portal and about), so
`Navigate` is proved to keep `Consistent` for every other target.

`src/types.ts` declares `semester` as a string, while `types.ts`, which the
form imports, declares it as a number; the model follows `types.ts`.

## Model

| member | source | states |
|---|---|---|
| `StudentForm.Merge` | components/StudentForm.tsx:48 | merging an update into a subject takes each field present in the update and keeps each absent field |
| `StudentForm.MergeTwice` | components/StudentForm.tsx:48 | two successive merges equal one merge of the combined update; merging the same update twice changes nothing more |
| `StudentForm.SpliceStart` | components/StudentForm.tsx:42 | `splice` starts at the index when it is within the list, counts a negative index from the end, clamps an index past the end to the length and one before the start to 0 |
| `StudentForm.RemovedAt` | components/StudentForm.tsx:40-44 | for a valid index the list loses exactly that row: one shorter, earlier rows in place, later rows shifted down by one, the multiset of rows less that row; an index at or past the end changes nothing; any smaller index on a non-empty list removes one row |
| `StudentForm.RemoveFromEnd` | components/StudentForm.tsx:42 | a negative index removes the row that many places from the end, or the first row when it reaches past the start |
| `StudentForm.Divisor` | components/StudentForm.tsx:53 | the divisor (the length, or 1 for an empty list) is exactly 1 for an empty list and the length of a non-empty list |
| `StudentForm.Sum` | components/StudentForm.tsx:53 | the fold of the marks is 0 for no subjects and never negative when no mark is |
| `StudentForm.AvgMarks` | components/StudentForm.tsx:52-54 | the average is the integer nearest to sum / divisor, halves rounded up (what `Math.round` does); an empty list gives 0 |
| `StudentForm.WithBacklog` | components/StudentForm.tsx:55 | the filtered list is no longer than the subject list and holds only flagged rows |
| `StudentForm.Backlogs` | components/StudentForm.tsx:55 | the backlog count is at most the number of subjects and 0 for no subjects |
| `StudentForm.WithBacklogKeepsFlagged` | components/StudentForm.tsx:55 | the filter keeps every flagged row exactly as often as it occurs and drops every unflagged row |
| `StudentForm.SumAppend` | components/StudentForm.tsx:53 | the fold of the marks over a concatenation is the sum of the two folds |
| `StudentForm.WithBacklogAppend` | components/StudentForm.tsx:55 | filtering a concatenation concatenates the filtered parts (the filter keeps order) |
| `StudentForm.BacklogsAppend` | components/StudentForm.tsx:55 | the backlog count of a concatenation is the sum of the parts' counts |
| `StudentForm.BacklogsBounded` | components/StudentForm.tsx:55 | 0 <= backlogs <= number of subjects; it is 0 exactly when no row is flagged and equals the number of subjects exactly when every row is |
| `StudentForm.SumBetween` | components/StudentForm.tsx:52-53 | when every mark lies in lo..hi, the sum lies between lo and hi times the number of subjects |
| `StudentForm.AvgMarksBetween` | components/StudentForm.tsx:52-54 | the average of a non-empty list lies between any lower and upper bound of its marks |
| `StudentForm.AvgMarksInRange` | components/StudentForm.tsx:52-54 | with every mark on the 0..100 marks slider, the displayed average is in 0..100, empty list included |
| `StudentForm.FiguresAfterAdd` | components/StudentForm.tsx:33-38 | adding a subject raises the sum by the new row's 50 marks and leaves the backlog count unchanged |
| `StudentForm.FiguresAfterRemove` | components/StudentForm.tsx:40-44 | removing row i lowers the sum by that row's marks and the backlog count by its flag |
| `StudentForm.FiguresAfterReplace` | components/StudentForm.tsx:46-50 | replacing row i changes the sum and the backlog count by the difference between the old and the new row only |
| `StudentForm.InitialData` | components/StudentForm.tsx:15-28 | the opening data is named after the signed-in user (unnamed without one), has three subjects, and every slider value lies in its slider's range (semester 1..8, attendance and marks 0..100, stress 1..10, study 0..16, sleep 0..12) |
| `StudentForm.InitialFigures` | components/StudentForm.tsx:15-28 | the opening data shows an average of 65 and one backlog |
| `StudentForm.AssessmentForm.constructor` | components/StudentForm.tsx:13-28 | the form opens on step 1 with the default data, named after the signed-in user or unnamed |
| `StudentForm.AssessmentForm.AddSubject` | components/StudentForm.tsx:33-38 | exactly one row with no name, 50 marks and no backlog is appended, earlier rows unchanged; step and all other fields unchanged |
| `StudentForm.AssessmentForm.RemoveSubject` | components/StudentForm.tsx:40-44 | the subject list becomes the spliced list; step and all other fields unchanged |
| `StudentForm.AssessmentForm.UpdateSubject` | components/StudentForm.tsx:46-50 | the list keeps its length, row index becomes the merge of the old row and the update, every other row is unchanged; step and all other fields unchanged |
| `StudentForm.AssessmentForm.PressPrevious` | components/StudentForm.tsx:326-334 | Previous steps back by one except on step 1 or while loading, when nothing changes; the step stays in 1..3 |
| `StudentForm.AssessmentForm.PressPrimary` | components/StudentForm.tsx:336-342 | while loading nothing happens; before step 3 the step advances by one; on step 3 the form data is submitted and the step stays; the step stays in 1..3 and the data is untouched |
| `App.SignInName` | components/Auth.tsx:18 | the name passed to sign-in is never empty: a typed name is kept, an empty one becomes exactly "John Doe" |
| `App.Destination` | App.tsx:34-41 | a navigation lands on the assessment only for a signed-in user; a request for the assessment without a user lands on sign-in; every other request lands exactly where it asked |
| `App.AppState.constructor` | App.tsx:17-21 | the application starts on the landing view with no user, no data, no analysis and nothing loading, in a consistent state |
| `App.AppState.Login` | App.tsx:23-26 | the user becomes the given name, email and role and the view the landing view; data, analysis and loading are unchanged; consistency is kept |
| `App.AppState.SubmitSignInForm` | components/Auth.tsx:16-19 | signing in through the form stores a user whose name is never empty (the typed name, or "John Doe"), with the given email and role, and shows the landing view |
| `App.AppState.Logout` | App.tsx:28-32 | the user and the analysis are cleared and the view is the landing view; the submitted data is kept; consistency is kept |
| `App.AppState.Navigate` | App.tsx:34-41 | the view becomes the destination of the request given whether a user is signed in; nothing else changes; consistency is kept for every target but the results view |
| `App.AppState.ShowSignIn` | App.tsx:63 | the sign-in buttons show the sign-in view and keep consistency |
| `App.AppState.BeginSubmission` | App.tsx:43-45 | started when nothing is loading, as the disabled button guarantees: loading starts and the submitted data is stored as the pending submission; view, user and analysis are unchanged |
| `App.AppState.FinishSubmission` | App.tsx:46-55 | on a generated analysis it is stored, paired with the pending submission's data, and the results view shown; on a failure view and analysis are unchanged; loading ends either way |
| `App.AppState.SubmitAssessment` | App.tsx:43-56 | a submission always stores the data and ends not loading; on success the results view's render guard holds and the analysis belongs to the submitted data; on failure view and analysis are unchanged; consistency is kept |
| `App.SignInThenStart` | App.tsx:23-41 | signing in and then starting the assessment always reaches the assessment view, never the sign-in view |

## Left out

- The rescue-plan service (`services/geminiService.ts`): it calls a hosted AI model, reads an API key from the environment and parses its reply. Its outcome is the `PlanReply` input of `FinishSubmission`.
- `console.error` and `alert` on a failed submission (App.tsx:51-52) are output only; the promise machinery of the handler is replaced by the two-step submission.
- `window.scrollTo` in navigation (App.tsx:35) is browser output.
- `getRangeBackground` (components/StudentForm.tsx:57-62) computes a CSS gradient in floating point.
- The single-field setters of the form (full name, roll number, semester, attendance, stress level, study hours, sleep hours) each replace one field of the form data; they are not modelled.
- The markup of every view, the results dashboard, its PDF export, the landing page, the mentor portal, the navigation bar and the footer.
- The `User` record of `types.ts` (with `id` and `full_name`): the core never uses it; the session keeps only name, email and role.
- UpdateSubject: an index outside the list, which JavaScript would turn into a hole and a partial record, is excluded by its precondition; the only callers pass indices of rendered rows.
- AvgMarks: the average is computed exactly on integers; the floating-point division before `Math.round` is not modelled (for integer sums and counts of this size the rounded result is the same).
- RemovedAt: a fractional or non-numeric index given to `splice` is not modelled; indices are integers.
- BeginSubmission, SubmitAssessment and FinishSubmission: overlapping submissions are not modelled; a submission starts only when nothing is loading and finishes only while loading, which the disabled primary button of the form guarantees.
