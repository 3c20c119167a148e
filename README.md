# IASO-MED front-end logic in Dafny

IASO-MED is a React front end for patients and doctors over a hosted backend (auth, tables,
file storage) and an external LLM API. This project models the logic in that front end that
can be stated precisely, and proves properties of it:

- **`AiAnalysis`**: the text extraction that turns an LLM reply into the string handed to
  the JSON parser.
  - It trims the reply and unwraps a triple-backtick fence, trying a `json`-tagged fence
    first. The regular expression is modelled as the backtracking search it performs.
  - The data-URL payload split and the MIME default.
  - The fixed results when no API key is configured or a call fails.
- **`ChatBot`**: the demo responder (a first-match-wins, case-insensitive keyword
  classifier) and the chat transcript, which is append-only behind the `isLoading` send
  latch.
- **`AppointmentBooking`**: the 12-hour to 24-hour slot conversion, the ordering of the
  twelve slots, and the booking handler's guard and record.
- **`ReportUpload`**:
  - The selected-file buffer, capped at five entries, with append-and-truncate and
    remove-at-index.
  - Storage paths, and the all-or-nothing report insert.
- **`RegisterPage`** and **`LoginPage`**: the sign-up wizard's step machine and payload, and
  the post-login redirect.
- **`AuthContext`** and **`ProtectedRoute`**: the mapping from a backend user to the app's
  user record, session events, and the route guard's decision.
- **`DoctorSearch`**, **`ReportList`**, **`PatientReportsReview`**: case-insensitive search
  with facet filters, and the stable sort by rating, fee or experience.
- **`ReportAnalysis`**: the total, case-insensitive map from a status to one of four
  display classes.
- **`Calendar`**, **`DoctorSchedule`**, **`DoctorDashboard`**, **`DoctorProfile`**:
  - Month navigation with year rollover.
  - The month and day query windows.
  - Stat derivation.
  - The "Dr. …" display names.

Shared modules:

- `Wrappers`: `Option`, `Result` and JavaScript truthiness for optional strings.
- `Text`: the JavaScript string built-ins the code relies on: `trim`, `split` on one
  character, `includes`, `startsWith`, ASCII `toLowerCase`, `parseInt` in radix 10, and
  number-to-string.
- `Seqs`: `filter`, `slice(0, n)` and subsequences.

Modelling choices:

- Backend, storage and LLM results are parameters of the handlers: a success value, or an
  error with its optional message.
- A `setTimeout` callback is a separate event method.
- Dates are integer (year, month, day) triples, and instants add hour, minute, second and
  millisecond in local time.
- Components whose handlers update React state are classes whose fields are that state.
  Their methods carry `modifies` clauses and state the whole new state.

## Model

| member | source | states |
|---|---|---|
| AiAnalysis.CloseFrom | src/lib/aiAnalysis.ts:86 | The lazy body followed by an optional newline and a fence ends at the first closing fence, or at the newline just before it, and no fence lies between; with no fence left there is no match |
| AiAnalysis.MatchAt | src/lib/aiAnalysis.ts:86 | A match of the fence pattern at a given start captures a body that holds no triple backtick |
| AiAnalysis.FirstMatch | src/lib/aiAnalysis.ts:86 | The leftmost match's captured body holds no triple backtick |
| AiAnalysis.FenceBody | src/lib/aiAnalysis.ts:86 | The `json`-tagged pattern is tried first, then the plain one; any capture is fence-free |
| AiAnalysis.ExtractJsonText | src/lib/aiAnalysis.ts:83-92 | The extracted text has no surrounding whitespace; when a fence matched it holds no triple backtick; when none matched it is the reply trimmed |
| AiAnalysis.FenceBodyFoundIff | src/lib/aiAnalysis.ts:86-89 | A fence body is found exactly when the text holds two non-overlapping triple backticks |
| AiAnalysis.NoFenceOnlyTrims | src/lib/aiAnalysis.ts:83-92 | Without a complete fence the extracted text is exactly the trimmed reply |
| AiAnalysis.ExtractIdempotent | src/lib/aiAnalysis.ts:83-92 | Extracting from an extracted string returns it unchanged |
| AiAnalysis.JsonFenceWins | src/lib/aiAnalysis.ts:86-89 | With a ```` ```json ```` opener, the result is the text from the first such opener to the first following fence, trimmed, even when a plain fence appears earlier |
| AiAnalysis.OtherTagKept | src/lib/aiAnalysis.ts:86 | The `json` match is case-sensitive: a fence tagged with another word (e.g. `JSON`) keeps that tag at the start of the extracted text |
| AiAnalysis.DataPayload | src/lib/aiAnalysis.ts:26 | A payload exists iff the data URL has a comma; it holds no comma and occurs in the URL |
| AiAnalysis.PayloadAfterFirstComma | src/lib/aiAnalysis.ts:26 | The payload is the text after the first comma up to any second comma |
| AiAnalysis.MimeTypeOf | src/lib/aiAnalysis.ts:28 | A non-empty file type is used as is; an empty one gives a non-empty default (`image/jpeg`) |
| AiAnalysis.AnalyzeMedicalReport | src/lib/aiAnalysis.ts:16-101 | No key: the "not configured" error and no request. Otherwise the request carries the fixed model, instruction, MIME type and payload. The outcome is Ok iff the reply is OK and carries text, with the extracted text as its value. An HTTP error gives its message or the fixed fallback; an OK reply without text gives the fixed "No content received" error; a thrown fetch or body error is passed on with its own message |
| AiAnalysis.GenerateReportSummary | src/lib/aiAnalysis.ts:118-153 | No key: the fixed "unavailable" text and no request. Otherwise the prompt names the type and text, a failed call gives the fixed failure text, a missing text the fixed missing-summary text, and never an error |
| ChatBot.FirstHit | src/components/chat/ChatBot.tsx:52-62 | The index found is the first bucket, in the fixed order, whose keywords occur in the text |
| ChatBot.DemoTopicIsFirstHit | src/components/chat/ChatBot.tsx:49-63 | The topic, and so the fixed reply, is that of the first keyword bucket the lowercased input hits, in the order blood/test/lab, report/analysis, appointment/doctor, help/how; no hit gives the default reply |
| ChatBot.DemoResponseIgnoresCase | src/components/chat/ChatBot.tsx:50 | Inputs that agree after lowercasing get the same reply |
| ChatBot.DemoResponseOfLowercased | src/components/chat/ChatBot.tsx:50 | Lowercasing the input first never changes the reply |
| ChatBot.LatestHitsBlood | src/components/chat/ChatBot.tsx:52 | Matching is by substring: a question containing "LATEST" is classified under the blood-test topic |
| ChatBot.ErrorReply | src/components/chat/ChatBot.tsx:139-143 | The error reply is the API-key warning iff the message contains "API key", otherwise the generic apology |
| ChatBot.AssistantContent | src/components/chat/ChatBot.tsx:123-143 | Reply text is appended as is. A body without text goes through the error path with its message, or "Gemini API error", or "Invalid response from AI". A thrown error goes through it with its message |
| ChatBot.FallbackMessagesGiveApology | src/components/chat/ChatBot.tsx:130-143 | The two fallback messages never mention "API key", so they yield the generic apology |
| ChatBot.CountRoleAppend | src/components/chat/ChatBot.tsx:74 | Appending a message adds one to its role's count and nothing to the other's |
| ChatBot.ChatSession.constructor | src/components/chat/ChatBot.tsx:13-23 | Closed, empty input, transcript holds only the greeting, latch down |
| ChatBot.ChatSession.Type | src/components/chat/ChatBot.tsx:261 | Typing sets the input and nothing else |
| ChatBot.ChatSession.OpenChat | src/components/chat/ChatBot.tsx:37-43 | The open event opens and un-minimises the window and takes the message, if any, as the input |
| ChatBot.ChatSession.Send | src/components/chat/ChatBot.tsx:65-105 | Accepted iff the trimmed input is non-empty and the latch is down. Rejected changes nothing. Accepted appends exactly one user message with the trimmed input and clears the input. Without a key the latch is released at once and a demo reply is pending; with a key the latch is held and the prompt is the history plus the new message |
| ChatBot.ChatSession.DemoTimerFires | src/components/chat/ChatBot.tsx:84-92 | The delayed demo reply for the oldest pending input is appended and the latch released |
| ChatBot.ChatSession.ReplyArrives | src/components/chat/ChatBot.tsx:121-153 | Exactly one assistant message (model text or error text) is appended and the latch released |
| ChatBot.ChatSession.Settled | src/components/chat/ChatBot.tsx:65-153 | With no reply outstanding there is one assistant message per user message plus the greeting |
| AppointmentBooking.ConvertTo24Hour | src/pages/patient/AppointmentBooking.tsx:116-122 | Every converted time ends in ":00" seconds |
| AppointmentBooking.ConvertLabel | src/pages/patient/AppointmentBooking.tsx:116-121 | "hh:mm MOD" converts to the converted hour field, the minutes verbatim and ":00" |
| AppointmentBooking.MidnightHour | src/pages/patient/AppointmentBooking.tsx:119 | "12:mm AM" converts to "00:mm:00" |
| AppointmentBooking.NoonHour | src/pages/patient/AppointmentBooking.tsx:119-120 | "12:mm PM" converts to "12:mm:00" (hour set to 00, then 12 added) |
| AppointmentBooking.AfternoonHour | src/pages/patient/AppointmentBooking.tsx:120 | A PM hour h other than 12 converts to h + 12 |
| AppointmentBooking.OtherHourVerbatim | src/pages/patient/AppointmentBooking.tsx:117-121 | A non-PM hour other than 12 is kept verbatim; minutes pass through; seconds are "00" |
| AppointmentBooking.LabelConverts | src/pages/patient/AppointmentBooking.tsx:116-122 | Any label "hh:mm AM" or "hh:mm PM" with hour 01 to 11 converts to a clock time whose minute of the day is hour × 60 + minutes, plus 12 hours for PM |
| AppointmentBooking.SlotsStrictlyIncreasing | src/pages/patient/AppointmentBooking.tsx:7-10 | Every one of the twelve slots converts to a valid clock time, and the times strictly increase in list order (hence are pairwise distinct) |
| AppointmentBooking.BookingForm.constructor | src/pages/patient/AppointmentBooking.tsx:18-24 | Empty date, time and reason; sharing on; not submitting, not confirmed, no error |
| AppointmentBooking.BookingForm.PickDate | src/pages/patient/AppointmentBooking.tsx:229 | Only the date changes |
| AppointmentBooking.BookingForm.PickTime | src/pages/patient/AppointmentBooking.tsx:242-246 | The time becomes the pressed slot's label, so the form keeps holding no time or one of the twelve slots; nothing else changes |
| AppointmentBooking.BookingForm.Describe | src/pages/patient/AppointmentBooking.tsx:266 | Only the visit reason changes |
| AppointmentBooking.BookingForm.SetShare | src/pages/patient/AppointmentBooking.tsx:280 | Only the share flag changes |
| AppointmentBooking.SubmittedTimeIsClockTime | src/pages/patient/AppointmentBooking.tsx:68-83 | The non-empty time a form can submit always converts to a valid HH:MM:SS clock time |
| AppointmentBooking.BookingForm.Submit | src/pages/patient/AppointmentBooking.tsx:66-114 | Books iff user, doctor, date and time are all present, otherwise nothing changes. Shared ids are the patient's reports only when sharing is on, else empty. The status is always "scheduled" and the time is the converted slot. Confirmed iff the insert succeeds, else the error's message or the fixed fallback |
| ReportUpload.AddFiles | src/pages/patient/ReportUpload.tsx:25-26 | The new list is the old one followed by the picked files, truncated to five; it never exceeds five, and the old files stay as a prefix |
| ReportUpload.AddFilesToFull | src/pages/patient/ReportUpload.tsx:26 | Adding to a full list changes nothing |
| ReportUpload.RemoveAtIsSplice | src/pages/patient/ReportUpload.tsx:36 | Removing index i drops exactly that element and keeps the rest in order; an out-of-range index changes nothing |
| ReportUpload.Extension | src/pages/patient/ReportUpload.tsx:48 | The extension is the dot-free suffix after the last '.', or the whole name without a dot |
| ReportUpload.ExtensionOfDotted | src/pages/patient/ReportUpload.tsx:48 | "base.ext" has extension "ext" |
| ReportUpload.StoragePathShape | src/pages/patient/ReportUpload.tsx:48-50 | The path starts with the user id and a '/', and keeps the file's extension |
| ReportUpload.UploadAll | src/pages/patient/ReportUpload.tsx:47-60 | All uploads succeed iff each does, giving the paths in file order; otherwise the result is the first failure |
| ReportUpload.StoredPaths | src/pages/patient/ReportUpload.tsx:52-60 | Every upload that succeeded is among the stored paths, even when another failed; when all succeed, the stored paths are exactly the ones returned |
| ReportUpload.UploadForm.constructor | src/pages/patient/ReportUpload.tsx:12-20 | Empty file list and fields, today's date, no flags set |
| ReportUpload.UploadForm.Drop | src/pages/patient/ReportUpload.tsx:22-27 | The files become the capped append of the dropped ones; every other field is unchanged |
| ReportUpload.UploadForm.Select | src/pages/patient/ReportUpload.tsx:29-34 | The files become the capped append of the selection; no selection changes nothing; every other field is unchanged |
| ReportUpload.UploadForm.Remove | src/pages/patient/ReportUpload.tsx:36 | The files lose the element at the index; every other field is unchanged |
| ReportUpload.UploadForm.Describe | src/pages/patient/ReportUpload.tsx:162-180 | The four text fields take the new values; files, stored paths, the uploading flag, the error and the success flag are unchanged |
| ReportUpload.UploadForm.Submit | src/pages/patient/ReportUpload.tsx:38-85 | No-op without a user or files. A record is inserted iff every upload succeeded. It carries title "type - hospital or 'Report'", status "pending", the first path as file URL, and no notes. Navigation to the reports page iff the insert succeeded, and only then does the success flag change. Uploaded files are never removed |
| RegisterPage.StepLabels | src/pages/auth/RegisterPage.tsx:272-274 | Three labels: Account, General, Finalize for a patient; Account, Credentials, Practice for a doctor |
| RegisterPage.Progress | src/pages/auth/RegisterPage.tsx:291 | Segment i is active iff i + 1 <= step: a run of `step` actives then inactives |
| RegisterPage.SignUpPayloadOf | src/pages/auth/RegisterPage.tsx:47-57 | Email, password and full name are the form's values; the role is "doctor" exactly when the chosen type is doctor and "patient" otherwise; the confirmation link points to the origin's /login page |
| RegisterPage.PayloadIgnoresOtherFields | src/pages/auth/RegisterPage.tsx:47-57 | Only email, password and full name reach the payload |
| RegisterPage.RegisterWizard.CurrentScreen | src/pages/auth/RegisterPage.tsx:74 | The role-selection screen is shown iff no user type is chosen |
| RegisterPage.RegisterWizard.constructor | src/pages/auth/RegisterPage.tsx:8-32 | Step 1, no user type, all seventeen fields empty |
| RegisterPage.RegisterWizard.ChooseType | src/pages/auth/RegisterPage.tsx:90-103 | The chosen type is set and the wizard is at step 1; the form data, error and loading flag are unchanged |
| RegisterPage.RegisterWizard.Change | src/pages/auth/RegisterPage.tsx:34-37 | Only the named field changes, and the error is cleared |
| RegisterPage.RegisterWizard.SubmitStep | src/pages/auth/RegisterPage.tsx:39-70 | Before the last step: step + 1 and no sign-up. At step 3: the payload is sent; success navigates to /login, failure sets the message or the fixed fallback. Step stays in 1..3 |
| RegisterPage.RegisterWizard.Back | src/pages/auth/RegisterPage.tsx:308-309 | Past step 1, step decreases by exactly one; nothing else changes |
| LoginPage.DashboardFor | src/pages/auth/LoginPage.tsx:36-37 | Role "doctor" goes to /doctor/dashboard, any other or missing role to /patient/dashboard |
| LoginPage.LoginForm.constructor | src/pages/auth/LoginPage.tsx:8-16 | Patient tab, empty fields, no error |
| LoginPage.LoginForm.SelectTab | src/pages/auth/LoginPage.tsx:60-66 | Only the tab changes |
| LoginPage.LoginForm.Change | src/pages/auth/LoginPage.tsx:18-21 | Only the named field changes, and the error is cleared |
| LoginPage.LoginForm.Submit | src/pages/auth/LoginPage.tsx:23-43 | The destination depends on the returned role only, never the tab. An error sets the message or "Invalid email or password" and navigates nowhere. Loading is off afterwards |
| AuthContext.LocalPart | src/context/AuthContext.tsx:52 | The email's text before the first '@' |
| AuthContext.MapUser | src/context/AuthContext.tsx:49-56 | The name is the metadata name if non-empty, else the email's local part if non-empty, else "User". The email defaults to "". The role is the unchecked metadata role or "patient" |
| AuthContext.NameFromEmail | src/context/AuthContext.tsx:52 | Without a name, "local@domain" gives the name "local" |
| AuthContext.NameDefaultsToUser | src/context/AuthContext.tsx:52 | Without a name, a missing email or one starting with '@' gives "User" |
| AuthContext.UseAuth | src/context/AuthContext.tsx:70-75 | Outside a provider the hook fails with the fixed message; inside it returns the context |
| AuthContext.AuthProvider.Value | src/context/AuthContext.tsx:64 | `isAuthenticated` is true exactly when a user is set |
| AuthContext.AuthProvider.constructor | src/context/AuthContext.tsx:24-25 | No user, loading |
| AuthContext.AuthProvider.InitialSessionResolved | src/context/AuthContext.tsx:29-34 | A session user is mapped, otherwise the user is kept; loading ends |
| AuthContext.AuthProvider.AuthStateChanged | src/context/AuthContext.tsx:37-44 | A session user is mapped, no session clears the user; loading ends |
| AuthContext.AuthProvider.Logout | src/context/AuthContext.tsx:58-61 | The user is cleared |
| ProtectedRoute.Guard | src/components/auth/ProtectedRoute.tsx:9-30 | Loading gives the spinner whatever the state. Not authenticated gives /login carrying the location. A set, different role redirects to the doctor dashboard iff the role is doctor, else the patient dashboard. Otherwise the children are rendered |
| ProtectedRoute.RedirectLandsOnOwnDashboard | src/components/auth/ProtectedRoute.tsx:25-27 | For roles patient and doctor the redirect target's own guard lets the user in |
| ProtectedRoute.OtherRoleRedirectsAgain | src/components/auth/ProtectedRoute.tsx:25-27 | Any other role is sent to the patient dashboard, whose guard sends it there again |
| DoctorSearch.OrZero | src/pages/patient/DoctorSearch.tsx:44-47 | A missing number counts as 0 |
| DoctorSearch.Format | src/pages/patient/DoctorSearch.tsx:39-49 | Missing fields default to "General Medicine", 0 years, "Private Practice", fee 0 and rating 0 |
| DoctorSearch.FormatAll | src/pages/patient/DoctorSearch.tsx:39-49 | Each row is formatted, in order |
| DoctorSearch.SortBy | src/pages/patient/DoctorSearch.tsx:67-72 | The output is a permutation of the input, ordered by the comparator's key |
| DoctorSearch.InsertKeepsSorted | src/pages/patient/DoctorSearch.tsx:67-72 | Inserting into an ordered list keeps it ordered |
| DoctorSearch.Visible | src/pages/patient/DoctorSearch.tsx:60-72 | The list shown is a permutation of the matching doctors, ordered by the chosen key |
| DoctorSearch.SortIsStable | src/pages/patient/DoctorSearch.tsx:67-72 | Doctors with equal keys keep their filter order |
| DoctorSearch.UnknownKeyKeepsOrder | src/pages/patient/DoctorSearch.tsx:71 | An unknown sort key leaves the filtered order unchanged |
| DoctorSearch.SortOrders | src/pages/patient/DoctorSearch.tsx:67-70 | "rating" gives non-increasing rating, "fee" non-decreasing fee, "experience" non-increasing experience |
| DoctorSearch.VisibleIsMatchingDoctors | src/pages/patient/DoctorSearch.tsx:60-66 | A doctor is shown iff it was fetched and its name or specialization contains the query ignoring case and the facet is "All" or equals the specialization |
| DoctorSearch.EmptySearchKeepsAll | src/pages/patient/DoctorSearch.tsx:62-64 | An empty query with "All" keeps every doctor |
| DoctorSearch.DoctorSearchPage.constructor | src/pages/patient/DoctorSearch.tsx:9-14 | Loading, no doctors, empty query, "All", sort by rating |
| DoctorSearch.DoctorSearchPage.FetchDone | src/pages/patient/DoctorSearch.tsx:20-58 | Rows are formatted into the list; a failure keeps the list and shows the fixed message |
| DoctorSearch.DoctorSearchPage.Search | src/pages/patient/DoctorSearch.tsx:108 | Only the query changes |
| DoctorSearch.DoctorSearchPage.ChooseSpecialization | src/pages/patient/DoctorSearch.tsx:126 | Only the specialization facet changes |
| DoctorSearch.DoctorSearchPage.ChooseSort | src/pages/patient/DoctorSearch.tsx:113 | Only the sort key changes, and the shown doctors are the same multiset as before, only reordered |
| DoctorSearch.DoctorSearchPage.Reset | src/pages/patient/DoctorSearch.tsx:204 | The facet becomes "All" and the query "", so every fetched doctor is shown; sort key, loading flag and error are unchanged |
| ReportList.Filtered | src/pages/patient/ReportList.tsx:42-48 | An order-preserving subsequence holding exactly the reports whose title or category contains the query ignoring case, whose category matches the type facet, and whose status equals the lowercased status facet, each as many times as it occurs in the input |
| ReportList.StatusSelectors | src/pages/patient/ReportList.tsx:46 | "Pending" keeps exactly status "pending", "Analyzed" exactly "analyzed" |
| ReportList.EmptySearchKeepsAll | src/pages/patient/ReportList.tsx:42-47 | An empty query with All/All keeps every report in order |
| ReportList.EmptyStateHeading | src/pages/patient/ReportList.tsx:110-117 | No heading when something is listed. Otherwise "Your medical archive is empty" iff there are no reports at all, else "No matching reports found" |
| ReportList.ClearedFiltersShowArchive | src/pages/patient/ReportList.tsx:110-117 | With cleared filters a non-empty archive shows no empty state |
| PatientReportsReview.Filtered | src/pages/doctor/PatientReportsReview.tsx:45-48 | An order-preserving subsequence holding exactly the reports whose title or patient name contains the query ignoring case, each as many times as it occurs in the input |
| PatientReportsReview.EmptySearchNeedsTitleOrName | src/pages/doctor/PatientReportsReview.tsx:46-47 | The empty query keeps a report iff it has a title or a patient name |
| PatientReportsReview.StatusBadge | src/pages/doctor/PatientReportsReview.tsx:123-126 | Amber iff the status is "pending", green otherwise |
| ReportAnalysis.StatusColor | src/pages/patient/ReportAnalysis.tsx:38-45 | One of exactly four styles. Normal (green, check icon), warning (amber) and critical (red, both alert icon) each iff the lowercased status is that word; anything else is the gray default |
| ReportAnalysis.StatusColorIgnoresCase | src/pages/patient/ReportAnalysis.tsx:39 | A status and its lowercase form get the same style |
| ReportAnalysis.WorkflowStatusesAreDefault | src/pages/patient/ReportAnalysis.tsx:43 | "pending" and "analyzed" get the gray default |
| ReportAnalysis.SummaryStyle | src/pages/patient/ReportAnalysis.tsx:80 | A missing or empty status is styled as "normal" |
| Calendar.DaysInMonth | src/pages/doctor/DoctorSchedule.tsx:23 | 28 to 31 days; February has 29 iff the Gregorian leap rule holds |
| Calendar.NextMonth | src/pages/doctor/DoctorSchedule.tsx:49-51 | Day 1 of the following month, December rolling to January of the next year |
| Calendar.PrevMonth | src/pages/doctor/DoctorSchedule.tsx:53-55 | Day 1 of the previous month, January rolling to December of the previous year |
| Calendar.MonthStepsUndo | src/pages/doctor/DoctorSchedule.tsx:49-55 | Next then previous, or previous then next, returns to day 1 of the original month |
| Calendar.LastOfMonth | src/pages/doctor/DoctorSchedule.tsx:23 | Day 0 of the next month is the last day of this month |
| DoctorSchedule.MonthWindow | src/pages/doctor/DoctorSchedule.tsx:22-23 | From 00:00 on day 1 to 00:00 on the month's last day |
| DoctorSchedule.MonthWindowCoverage | src/pages/doctor/DoctorSchedule.tsx:22-37 | Every moment before the last day is in the window; on the last day only its 00:00:00.000 is |
| DoctorSchedule.MonthWindowExcludesOtherMonths | src/pages/doctor/DoctorSchedule.tsx:22-37 | Nothing from another month is in the window |
| DoctorSchedule.ScheduleView.Totals | src/pages/doctor/DoctorSchedule.tsx:171-175 | Total bookings is the list length, and hours are that many half hours |
| DoctorSchedule.ScheduleView.constructor | src/pages/doctor/DoctorSchedule.tsx:9-11 | Today, no appointments, loading |
| DoctorSchedule.ScheduleView.NextMonthClicked | src/pages/doctor/DoctorSchedule.tsx:49-51 | The date moves to the next month and its window is queried |
| DoctorSchedule.ScheduleView.PrevMonthClicked | src/pages/doctor/DoctorSchedule.tsx:53-55 | The date moves to the previous month and its window is queried |
| DoctorSchedule.ScheduleView.FetchDone | src/pages/doctor/DoctorSchedule.tsx:19-47 | Fetched rows replace the list (none gives empty); a failure keeps the list and its totals |
| DoctorDashboard.TodayWindow | src/pages/doctor/DoctorDashboard.tsx:28-31 | Today from 00:00:00.000 to 23:59:59.999 |
| DoctorDashboard.TodayWindowIsToday | src/pages/doctor/DoctorDashboard.tsx:28-31 | An instant is in the window iff it is on today's date |
| DoctorDashboard.LengthOrZero | src/pages/doctor/DoctorDashboard.tsx:72-73 | A missing list counts as 0 |
| DoctorDashboard.DashboardView.constructor | src/pages/doctor/DoctorDashboard.tsx:9-17 | Zero stats with rating "4.9", loading |
| DoctorDashboard.DashboardView.FetchDone | src/pages/doctor/DoctorDashboard.tsx:25-82 | Stats are the list lengths with null as 0. Pending reviews are at most 5 because of the query limit. Total patients counts the doctor's appointment rows. The rating is always "4.9" |
| DoctorDashboard.Greeting | src/pages/doctor/DoctorDashboard.tsx:106 | A name whose lowercase starts with "dr." is shown unchanged, else "Dr. " and its last space-separated word |
| DoctorDashboard.GreetsByLastName | src/pages/doctor/DoctorDashboard.tsx:106 | "First Last" is greeted as "Dr. Last" |
| DoctorDashboard.GreetingIsFixedPoint | src/pages/doctor/DoctorDashboard.tsx:106 | A greeting used as a name greets as itself |
| DoctorProfile.DisplayName | src/pages/doctor/DoctorProfile.tsx:50 | The profile name, else the user name, else "Doctor"; never empty |
| DoctorProfile.Headline | src/pages/doctor/DoctorProfile.tsx:75 | "Dr. " and the last space-separated word |
| DoctorProfile.HeadlineOfTitledName | src/pages/doctor/DoctorProfile.tsx:75 | "Dr. " is added even when the name already starts with "Dr.": "Dr. Jane Smith" gives "Dr. Smith" |
| DoctorProfile.Initial | src/pages/doctor/DoctorProfile.tsx:65 | The first character of the last word, or nothing when that word is empty |
| DoctorProfile.InitialMatchesHeadline | src/pages/doctor/DoctorProfile.tsx:65 | The avatar initial is the letter after "Dr. " in the headline |
| DoctorProfile.NumberOr | src/pages/doctor/DoctorProfile.tsx:81 | A missing or zero number shows the placeholder |
| DoctorProfile.CardFor | src/pages/doctor/DoctorProfile.tsx:50-166 | Without a profile every field shows its placeholder ("--", "4.9", "Verification Pending", "100", …). With one, each missing field does. The initial letter is shown only when the record has no avatar URL (DoctorProfile.tsx:61-67) |
| Text.FirstPart | src/context/AuthContext.tsx:52 | `split(sep)[0]` is the separator-free prefix that ends at the first separator |
| Text.TrimIdempotent | src/lib/aiAnalysis.ts:92 | Trimming a trimmed string changes nothing |
| Text.TrimIsInfix | src/lib/aiAnalysis.ts:83 | `trim` returns the input with a run of whitespace cut from each end, and the cut runs are whitespace only |
| Text.TrimIgnoresPadding | src/components/chat/ChatBot.tsx:70 | Whitespace added around a string does not change what `trim` returns |
| Text.SplitShape | src/pages/patient/ReportUpload.tsx:48 | `split` gives one part exactly when the separator is absent (and then the part is the whole string); `pop` gives the separator-free suffix that starts after the last separator |
| Text.ParseIntOfDigits | src/pages/patient/AppointmentBooking.tsx:120 | `parseInt` of a digit string is its decimal value |
| Seqs.FilterIsSubsequence | src/pages/patient/ReportList.tsx:42 | Filtering keeps the surviving elements in their original order |
| Seqs.FilterCounts | src/pages/patient/ReportList.tsx:42 | Each kept value occurs in the filtered list exactly as often as in the input, every other value not at all |

## Left out

- The backend traffic is not modelled; its results are parameters:
  - Table queries, inserts and updates.
  - Storage uploads.
  - The auth calls: sign-up, sign-in, sign-out, session and auth events.
- The LLM `fetch` calls, `response.json()` and `JSON.parse`. The model stops at the string
  handed to the parser, and the parsed value is not validated.
- `fileToBase64`, `FileReader` and base64 itself. The data URL is an input.
- `window.print`, `alert`, and `navigate` beyond the path it is given.
- Rendering, and the pages that are only markup or backend queries: landing page, footer,
  navigation bar, patient profile and patient dashboard.
- JavaScript `Date`, `toISOString`, time zones and locales:
  - Query windows are compared in local time.
  - The UTC conversion before the query is not modelled.
  - `AppointmentBooking.BookingForm.Submit` records the date and converted time, not the
    parsed instant.
- `Math.random` and `Date.now` in file names. They are a `Stamp` parameter per file.
- The `setTimeout` delays are left out. `ChatBot.ChatSession.DemoTimerFires` is the
  delayed event, and the two-second redirect after an upload is reported as the returned
  navigation.
- Message timestamps in the chat transcript.
- `ReportUpload.UploadAll`: concurrent uploads under `Promise.all` are modelled as a
  sequence whose first failure, in list order, is reported. The real call reports whichever
  failure happens first in time.
- Floating point:
  - Ratings and fees are whole numbers.
  - The schedule's hours are a count of half hours.
  - The MB size display is not modelled.
- `toLowerCase` is ASCII-only. `trim` uses the JavaScript whitespace set listed in `Text`.
- `AuthContext.AuthProvider.Logout`: a rejected sign-out, which would skip clearing the
  user, is not modelled.
- Rows whose required fields are null, where the source would throw on `toLowerCase`, are
  not modelled. Report titles and categories in the patient list, and a doctor row without
  a joined profile, are assumed present.
- `DoctorProfile.NumberOr` states nothing about negative numbers. The source prints them;
  the model renders them with a minus sign.
- The report page's fetch and its placeholder findings list. Only the status styling is
  modelled.
- The error banners' retry buttons and the loading-spinner text.
- `AppointmentBooking.BookingForm.Submit` and `ReportUpload.UploadForm.Submit` test the
  signed-in user through its id: a user whose id is the empty string counts as signed out
  in the model, while the source's `!user` test lets it through.
- `RegisterPage.RegisterWizard.SubmitStep`, `LoginPage.LoginForm.Submit` and
  `ReportUpload.UploadForm.Submit` run on any form state. The browser's check of `required`
  inputs before `onSubmit` fires is not modelled. So the model lets a step advance, or a
  sign-up, sign-in or upload go ahead, with a required field empty, which the page would
  refuse. The same holds for the booking form's required date input, which its handler
  also checks itself.
- `AppointmentBooking.BookingForm.PickDate` accepts any date text. The date input's `min`
  of today and the browser's date format are not modelled.
