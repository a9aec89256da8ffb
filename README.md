# Assignment portal: dashboards and mock login forms

This project models the client-side logic of a college assignment portal.
Teachers create assignments and students submit them. Everything the
model covers lives in React component state; nothing reaches a server:

- **Teacher dashboard** (`TeacherDashboard` module). The class
  `TeacherDashboard.Dashboard` holds the assignment list, the
  "Create Assignment" form and the active tab.
  - `CreateAssignment` rejects the form unless title, semester, branch,
    section and due date are filled in.
  - On success it appends one record with zero submissions and a class size
    of 40 to 99, clears the form and switches to the "My Assignments" tab.
  - The dashboard tab shows "Total Assignments" (the list length),
    "Total Submissions" and "Pending Reviews" (both the same `reduce` sum)
    and "Recent Assignments" (`slice(0, 3)`).
  - "Recent Assignments" is described as "Your latest created
    assignments", but it shows the first three entries of the list.
    New assignments are appended at the end. So once three exist, a newly
    created one never appears there; `AppendStats` proves this.
- **Student dashboard** (`StudentDashboard` module). The class
  `StudentDashboard.Dashboard` holds the assignment list and the profile
  record.
  - Submitting an id marks every entry with that id as submitted on the
    given date.
  - The "Submit" button does nothing but report an error when no file is
    selected.
  - The "Submitted" and "Pending" counts and the "Upcoming Deadlines"
    list are filters over the list.
  - A card shows one of three badges: Submitted, Overdue or Pending. For
    one reading of the clock, it offers an upload exactly when the badge
    is Pending.
- **Login forms** (`StudentLogin`, `TeacherLogin` modules). Each is a
  two-field form with a show-password toggle. Its `handleLogin` submit
  handler is a mock: it succeeds and navigates to the role's dashboard
  exactly when both stored fields are non-empty. The student form stores
  the USN upper-cased. The teacher form stores the email it receives
  from the input verbatim.

The module `Common` holds the shared values:

- `Option`.
- The selected `File`.
- `LoginOutcome`.
- The ASCII upper-casing used for the USN.

The model treats the following as parameters:

- Each call of `Math.random()`: the new id (any string) and the class-size
  draw (a real number in [0, 1)).
- The clock: the submission date is a string, and whether a due date has
  passed is a boolean.

## Model

| member | source | states |
|---|---|---|
| `TeacherDashboard.ClassSize` | src/pages/TeacherDashboard.tsx:81 | for every draw in [0, 1) the class size `floor(draw * 60) + 40` lies in 40..99 |
| `TeacherDashboard.WithField` | src/pages/TeacherDashboard.tsx:264-336 | editing one input or select of the create form sets that field to the value and leaves every other field and the file unchanged |
| `TeacherDashboard.ReduceIsSum` | src/pages/TeacherDashboard.tsx:199 | the `reduce` left fold from accumulator `acc` equals `acc` plus the reference sum of submissions |
| `TeacherDashboard.SumAppend` | src/pages/TeacherDashboard.tsx:210 | the submission sum of a concatenation is the sum of the parts' sums |
| `TeacherDashboard.DashboardStats` | src/pages/TeacherDashboard.tsx:186-227 | "Total Assignments" is the list length; "Total Submissions" and "Pending Reviews" are equal and are the sum of submissions; "Recent Assignments" is a prefix of the list of length min(3, length) |
| `TeacherDashboard.AppendStats` | src/pages/TeacherDashboard.tsx:84-227 | appending a record with zero submissions raises the count by one and leaves both submission figures unchanged; the new record appears in "Recent Assignments" only when the list had fewer than three entries |
| `TeacherDashboard.Dashboard.constructor` | src/pages/TeacherDashboard.tsx:34-58 | the initial state is the one sample assignment, an empty form and the dashboard tab, and every record is well formed |
| `TeacherDashboard.Dashboard.Edit` | src/pages/TeacherDashboard.tsx:268-335 | an input's `onChange` replaces only its own form field; the list and the tab are unchanged |
| `TeacherDashboard.Dashboard.ChooseFile` | src/pages/TeacherDashboard.tsx:345 | the file input replaces only the form's file; the list and the tab are unchanged |
| `TeacherDashboard.Dashboard.CreateAssignment` | src/pages/TeacherDashboard.tsx:62-100 | accepts iff title, semester, branch, section and due date are all non-empty, so description and file are optional. On rejection the list, form and tab are unchanged. On success exactly one record is appended at the end and the old entries keep their values and order. The new record carries the given id and the form's six texts, has zero submissions and a class size in 40..99. The form is then empty with no file, and the tab is "assignments". Every record stays well formed (40..99 students, submissions at most class size) |
| `TeacherDashboard.Dashboard.Stats` | src/pages/TeacherDashboard.tsx:183-227 | returns exactly `DashboardStats` of the current list: its length, the equal submission and pending-review sums, and at most three leading entries |
| `StudentDashboard.MarkSubmitted` | src/pages/StudentDashboard.tsx:63-67 | length is preserved. Every entry with the id becomes submitted with that submission date, and all its other fields (title, grade, ...) are unchanged. Every entry with another id is unchanged, position by position |
| `StudentDashboard.MarkSubmittedAbsent` | src/pages/StudentDashboard.tsx:63-67 | submitting an id that no entry has leaves the list identical |
| `StudentDashboard.MarkSubmittedIdempotent` | src/pages/StudentDashboard.tsx:63-67 | submitting the same id twice on the same date gives the same list as submitting it once |
| `StudentDashboard.SubmittedOnes` | src/pages/StudentDashboard.tsx:184 | the "Submitted" filter holds exactly the submitted entries of the list, and no more of them than the list has |
| `StudentDashboard.PendingOnes` | src/pages/StudentDashboard.tsx:195 | the "Pending" filter holds exactly the unsubmitted entries of the list, and no more of them than the list has |
| `StudentDashboard.SubmittedPendingPartition` | src/pages/StudentDashboard.tsx:174-195 | the submitted and pending entries together are the list's entries as a multiset, so the submitted count plus the pending count equals the total |
| `StudentDashboard.PendingAppend` | src/pages/StudentDashboard.tsx:218 | "Upcoming Deadlines" of a concatenation is the concatenation of the parts' upcoming lists, so the original order is kept |
| `StudentDashboard.PendingOfPending` | src/pages/StudentDashboard.tsx:218 | a list with no submitted entry is its own "Upcoming Deadlines" list |
| `StudentDashboard.SubmitLeavesUpcoming` | src/pages/StudentDashboard.tsx:62-67 | after a submit, "Upcoming Deadlines" is the previous one minus the entries with that id, the rest in the same order |
| `StudentDashboard.StatusOf` | src/pages/StudentDashboard.tsx:256-265 | the badge is Submitted iff the assignment is submitted, whatever its due date. It is Overdue iff unsubmitted and overdue, and Pending iff unsubmitted and not overdue |
| `StudentDashboard.UploadOffered` | src/pages/StudentDashboard.tsx:292 | for one overdue verdict, the upload control is offered iff the badge is Pending, i.e. neither submitted nor overdue |
| `StudentDashboard.SubmittedCardIsFinal` | src/pages/StudentDashboard.tsx:256-292 | after submitting an entry's id, its card shows Submitted and offers no upload, overdue or not |
| `StudentDashboard.Dashboard.constructor` | src/pages/StudentDashboard.tsx:34-58 | the initial state is the two sample assignments (the second submitted and graded A) and an empty profile |
| `StudentDashboard.Dashboard.SubmitAssignment` | src/pages/StudentDashboard.tsx:62-73 | the new list is the map-update of the old one by id and date; the profile is unchanged |
| `StudentDashboard.Dashboard.ClickSubmit` | src/pages/StudentDashboard.tsx:303-314 | reports success iff a file is selected, and only then submits. Without a file the list is unchanged and "No File Selected" is reported |
| `StudentDashboard.Dashboard.SelectSemester` | src/pages/StudentDashboard.tsx:347 | only the profile's semester changes |
| `StudentDashboard.Dashboard.SelectBranch` | src/pages/StudentDashboard.tsx:361 | only the profile's branch changes |
| `StudentDashboard.Dashboard.SelectSection` | src/pages/StudentDashboard.tsx:375 | only the profile's section changes |
| `StudentDashboard.Dashboard.Counts` | src/pages/StudentDashboard.tsx:168-218 | "Total Assignments" is the length, "Submitted" plus "Pending" equals it, and "Upcoming Deadlines" is the pending filter, whose length is the "Pending" figure |
| `Common.UpperChar` | src/pages/StudentLogin.tsx:65 | an ASCII lower-case letter becomes its upper-case letter, any other character is kept, and the result is never lower case |
| `Common.Upper` | src/pages/StudentLogin.tsx:65 | upper-casing keeps the length, maps each character by `UpperChar`, and leaves no lower-case ASCII letter |
| `Common.UpperFixesUpper` | src/pages/StudentLogin.tsx:65 | text with no lower-case letter is its own upper case |
| `Common.UpperIdempotent` | src/pages/StudentLogin.tsx:65 | upper-casing twice equals upper-casing once |
| `Common.UpperEmpty` | src/pages/StudentLogin.tsx:65 | the upper-cased text is empty iff the typed text is empty |
| `StudentLogin.Decide` | src/pages/StudentLogin.tsx:24-36 | succeeds iff USN and password are both non-empty, and success always targets '/student-dashboard' |
| `StudentLogin.DecideAfterTyping` | src/pages/StudentLogin.tsx:24-65 | after typing a USN and a password, login succeeds iff neither typed text was empty; upper-casing cannot change the verdict |
| `StudentLogin.LoginForm.constructor` | src/pages/StudentLogin.tsx:14-18 | the form starts with empty fields and the password hidden |
| `StudentLogin.LoginForm.EditUsn` | src/pages/StudentLogin.tsx:65 | the stored USN is the upper case of the last input and stays upper case. Typing the stored value back leaves it unchanged. The password and the toggle are unchanged |
| `StudentLogin.LoginForm.EditPassword` | src/pages/StudentLogin.tsx:78 | the password is stored verbatim; the USN and the toggle are unchanged |
| `StudentLogin.LoginForm.TogglePassword` | src/pages/StudentLogin.tsx:86 | the show-password flag is negated, so two toggles restore it; the fields are unchanged |
| `StudentLogin.LoginForm.Login` | src/pages/StudentLogin.tsx:21-37 | navigates to '/student-dashboard' iff both fields are non-empty, otherwise reports failure without navigating |
| `TeacherLogin.Decide` | src/pages/TeacherLogin.tsx:24-36 | succeeds iff email and password are both non-empty, and success always targets '/teacher-dashboard' |
| `TeacherLogin.LoginForm.constructor` | src/pages/TeacherLogin.tsx:14-18 | the form starts with empty fields and the password hidden |
| `TeacherLogin.LoginForm.EditEmail` | src/pages/TeacherLogin.tsx:65 | the email is stored verbatim, with no case change; the password and the toggle are unchanged |
| `TeacherLogin.LoginForm.EditPassword` | src/pages/TeacherLogin.tsx:78 | the password is stored verbatim; the email and the toggle are unchanged |
| `TeacherLogin.LoginForm.TogglePassword` | src/pages/TeacherLogin.tsx:86 | the show-password flag is negated, so two toggles restore it; the fields are unchanged |
| `TeacherLogin.LoginForm.Login` | src/pages/TeacherLogin.tsx:21-37 | navigates to '/teacher-dashboard' iff both fields are non-empty, otherwise reports failure without navigating |

## Left out

- Toasts, `navigate` calls and JSX rendering are not modelled. A login's navigation is only its `LoginOutcome`. The submit button's outcome is a `SubmitOutcome`.
- Sidebar opening and the tab buttons (`setActiveTab` from the sidebar) are visual state. The model records only the tab that `CreateAssignment` switches to.
- `handleLogout` on both dashboards only shows a toast and navigates to '/'. No state changes, so it has no model.
- `isOverdue` and `daysUntilDue` (src/pages/StudentDashboard.tsx:83-93) read the wall clock and use floating-point division and `Math.ceil`. Overdue is a boolean input, "days left" is not modelled, and the submission date is a string parameter.
- The completion percentage `toFixed(0)` (src/pages/TeacherDashboard.tsx:404) is floating-point formatting and is not modelled.
- `StudentDashboard.UploadOffered`: assumes the badge and the upload guard see the same overdue verdict. The source reads the clock separately for each (src/pages/StudentDashboard.tsx:261 and 292). A render whose two reads fall on either side of the due instant would show "Pending" without an upload control. The model does not capture that.
- `StudentLogin.LoginForm.Login`: models the `handleLogin` handler alone. The browser's `required` validation on both inputs (src/pages/StudentLogin.tsx:66, 79) blocks submission of an empty field before the handler runs. That validation is not modelled, so through the page the "Login Failed" branch is not reached with an empty field.
- `TeacherLogin.LoginForm.Login`: models the `handleLogin` handler alone. The browser's `required` validation (src/pages/TeacherLogin.tsx:66, 79) and `type="email"` validation (src/pages/TeacherLogin.tsx:62) are not modelled. The browser blocks a non-empty but malformed email such as "abc", yet the model lets it navigate. Through the page, an empty field never reaches the handler.
- `TeacherLogin.LoginForm.EditEmail`: stores the value the input hands over verbatim. The email input's own trimming of leading and trailing whitespace happens before that and is not modelled.
- `TeacherDashboard.ClassSize`: uses exact reals for `Math.random() * 60`, not IEEE doubles. The double product stays below 60 for every draw below 1, so the range 40..99 is the same.
- `TeacherDashboard.Dashboard.CreateAssignment`: the id `Math.random().toString(36).substr(2, 9)` is any string parameter. Its base-36 format is not modelled, and ids are not claimed to be unique, because the code does not ensure it.
- `Common.Upper`: models `toUpperCase` on ASCII letters only. Full Unicode case mapping (which can change length, e.g. 'ß' to "SS") is not modelled.
- The `File` given to `handleSubmitAssignment` is used only for its presence. It is a name-only value.
- "Average Grade" is the fixed text "A-" and the grade badge is plain display, so neither is modelled.
- The "Update Profile" button has no handler and is not modelled.
- The Supabase-backed `useAuth` hook, the role-directory lookups and the signup flow are not part of this model. They delegate to an external service whose code is not available.
- `Header`, `Footer` and `Index` are presentation only and are not modelled.
