# Task-and-tag front-end: verified model of its rules

This Dafny project models the sequential rules of a single-page task-and-tag
manager. Each source file below becomes one module.

- **Colour strings** (`utils/color.ts` → module `Color`, shared regex shapes in
  module `Hex`). A keystroke gate accepts or refuses typed text (`#?` plus
  0–6 hex digits). Three total helpers turn typed text into hex colours:
  - a best-effort normaliser;
  - a preview colour that is never invalid;
  - a submission colour that is always canonical (`#` plus six upper-case hex digits).
  The 3-digit expansion follows CSS Color Module Level 4, section 5.2.
  Every other partial run is right-padded with `0`.
- **Colour picker** (`components/ColorPicker.tsx` → module `ColorPicker`).
  Its own case-preserving helper, plus a `ColorField` class for the text
  field's value and its change, blur and colour-pick handlers.
- **Tag schema** (`schema/tag.schema.ts` → module `TagSchema`). The name
  and colour checks, reported as an ordered list of issues.
- **Task list** (`components/task/TaskList.tsx` → module `TaskList`). A
  stable sort by status rank (`in_progress`, `pending`, `completed`),
  modelled as an insertion sort. It is proved equal to an independent
  reference: one bucket per status, in rank order. Any stable sort by rank
  gives the same sequence, so the engine's choice of algorithm does not
  matter. Rendering gives the empty state or one card per task, delayed `50 * i` ms.
- **Task form** (`components/task/TaskForm.tsx` → module `TaskForm`).
  - Pure shaping of the record on open and on submit.
  - Tag toggling and removal by id.
  - A `TaskFormState` class whose handlers change one field each and keep
    the calendar selection equal to the record's due date.
- **Authentication** (`hooks/use-auth.tsx` → module `Auth`). An
  `AuthProvider` class holds `user`, `isLoading`, `isAuthenticated` and
  the `client_token` cookie.
  - Start-up, refresh, login and logout are methods that take the server's
    outcome as a parameter, including the HTTP status of a failed request.
    All three requests go through one client, whose response interceptor
    handles a 401 before the method sees the failure.
  - Router navigations are a ghost log.
  - Every transition keeps `isAuthenticated` equal to "a user is present".
  - Every failure path removes the cookie.

Module `Tasks` holds the `Task` and `Tag` records. Module `Wrappers` holds
`Option` and `Result`.

The three colour helpers disagree in small ways, and the model proves each
case:
- `a1` previews as the fallback `#0EA5E9` but is normalised and saved as `#A10000`.
- The picker shows `#12` as the fallback while the preview shows `#120000`.
- The picker keeps lower case; the other helpers upper-case.
- A partial value such as `#12` passes the keystroke gate and the schema,
  but leaving the field replaces it with the fallback.

The preview recognises bare runs only from 3 digits up, so bare runs of 1 or
2 digits preview as `#0EA5E9`, while `normalizeColor` pads them
(utils/color.ts:16-20 against 44-51).

## Model

| member | source | states |
|---|---|---|
| Color.IsValidColorInput | utils/color.ts:1-3 | accepts exactly an optional `#` followed by at most six hex digits; the explicit `""` and `"#"` tests are subsumed by the pattern |
| Color.NormalizeColor | utils/color.ts:5-29 | the result is the input unchanged or canonical; which of the two is stated by NormalizeColorCanonical |
| Color.GetSafeColor | utils/color.ts:31-52 | the preview colour is always canonical, whatever the input; GetSafeColorSpec says which colour |
| Color.GetSubmissionColor | utils/color.ts:54-62 | the submitted colour is always canonical, whatever the input; GetSubmissionColorSpec says which colour |
| Color.NormalizeColorCanonical | utils/color.ts:5-29 | the result is canonical exactly when the gate accepts the input and it is neither `""` nor `"#"`; otherwise the input comes back unchanged |
| Color.NormalizeColorShorthand | utils/color.ts:11-19 | `rgb` and `#rgb` both give `#` and each digit doubled, upper-cased |
| Color.NormalizeColorPadding | utils/color.ts:16-26 | runs of 1, 2, 4, 5 or 6 digits, with or without `#`, give `#` and the run padded with `0` to six digits, upper-cased |
| Color.NormalizeColorIdempotent | utils/color.ts:5-29 | normalising twice is normalising once |
| Color.GetSafeColorSpec | utils/color.ts:31-52 | the preview colour is always canonical; it equals the normalised colour on `#` plus 1–6 digits and bare 3–6 digit runs, and is `#0EA5E9` on every other input |
| Color.GetSafeColorIdempotent | utils/color.ts:31-52 | the preview of a preview colour is itself |
| Color.GetSubmissionColorSpec | utils/color.ts:54-62 | the submitted colour is the normalised colour when that is canonical and `#0EA5E9` otherwise, so it is always canonical |
| Color.GetSubmissionColorIdempotent | utils/color.ts:54-62 | submitting a submitted colour changes nothing |
| Color.SubmissionAgreesWithPreview | utils/color.ts:31-62 | on every shape the preview recognises, the submitted colour is the previewed one |
| Color.PreviewAndSubmissionDisagreeOnShortBareRuns | utils/color.ts:31-62 | a bare run of one or two digits previews as `#0EA5E9` but is submitted padded, and the two differ |
| ColorPicker.GetValidHexColor | components/ColorPicker.tsx:9-28 | always `#` and six hex digits; a complete value comes back as it is; any shape other than 3 or 6 digits (with or without `#`) gives `#0EA5E9` |
| ColorPicker.GetValidHexColorOnRuns | components/ColorPicker.tsx:10-25 | a bare 3- or 6-digit run and the same run after `#` give `#` and the digits (doubled for 3), case kept |
| ColorPicker.GetValidHexColorIdempotent | components/ColorPicker.tsx:9-28 | applying the picker helper twice is applying it once |
| ColorPicker.PickerAgreesWithPreviewUpToCase | components/ColorPicker.tsx:9-28 | on the shapes the picker recognises, its colour upper-cased is the preview colour |
| ColorPicker.PickerRejectsPartialRuns | components/ColorPicker.tsx:27 | `#` plus 1, 2, 4 or 5 digits gives `#0EA5E9` in the picker while the preview pads it |
| Color.PreviewAndNormalizeDisagreeOnA1 | utils/color.ts:16-51 | `a1` previews as `#0EA5E9` and normalises to `#A10000` |
| ColorPicker.PickerAndPreviewDisagreeOnHash12 | components/ColorPicker.tsx:9-28 | `#12` is `#0EA5E9` in the picker and `#120000` in the preview |
| ColorPicker.PickerKeepsCase | components/ColorPicker.tsx:10-12 | `#abcdef` stays lower-case in the picker and is `#ABCDEF` in the preview |
| ColorPicker.AfterTextChange | components/ColorPicker.tsx:41-51 | typed text replaces the value exactly when the keystroke gate of utils/color.ts accepts it; otherwise the value stays |
| ColorPicker.AfterBlur | components/ColorPicker.tsx:53-56 | after leaving the field the value is empty or `#` plus six hex digits; empty and complete values are kept, others replaced by the picker helper's colour |
| ColorPicker.AfterBlurIdempotent | components/ColorPicker.tsx:53-56 | leaving the field twice is leaving it once |
| ColorPicker.BlurDiscardsPartialRuns | components/ColorPicker.tsx:41-56 | typing `#` plus 1, 2, 4 or 5 digits and leaving the field ends with `#0EA5E9` |
| ColorPicker.ColorField.constructor | components/ColorPicker.tsx:30-34 | the field starts with the value it is given |
| ColorPicker.ColorField.SafeValue | components/ColorPicker.tsx:35 | the native colour input always shows `#` and six hex digits |
| ColorPicker.ColorField.HandleColorChange | components/ColorPicker.tsx:37-39 | a pick in the native input is forwarded as it is |
| ColorPicker.ColorField.HandleTextChange | components/ColorPicker.tsx:41-51 | forwards exactly the text the gate accepts; the new value is AfterTextChange of the old |
| ColorPicker.ColorField.HandleInputBlur | components/ColorPicker.tsx:53-61 | replaces exactly a non-empty incomplete value; the new value is AfterBlur of the old, so empty or complete |
| TagSchema.ValidateTag | schema/tag.schema.ts:4-22 | no issue exactly when the name has 1 to 20 characters with at least one that is not whitespace and the colour passes the gate; a colour issue exactly when the gate refuses; an empty name reports both the length and the whitespace issue |
| TagSchema.SchemaAcceptsPartialColors | schema/tag.schema.ts:12-21 | `""`, `"#"` and partial runs such as `#12` raise no colour issue |
| TagSchema.AcceptedColorIsSubmittedNormalized | schema/tag.schema.ts:12-21 | a colour the schema accepts is saved as its canonical normalisation, except `""` and `"#"`, which are saved as `#0EA5E9` |
| TaskList.SortForDisplay | components/task/TaskList.tsx:26-33 | the sorted copy has as many tasks as the input |
| TaskList.SortForDisplayPermutes | components/task/TaskList.tsx:26 | the sorted copy is a permutation of the tasks |
| TaskList.SortForDisplaySpec | components/task/TaskList.tsx:26-33 | the sorted copy is ordered by rank (in progress, pending, completed) and keeps the input order within each status |
| TaskList.SortForDisplayIsBuckets | components/task/TaskList.tsx:26-33 | the sorted copy is the in-progress tasks, then the pending ones, then the completed ones, each in input order |
| TaskList.StableRankSortIsUnique | components/task/TaskList.tsx:26-33 | any rank-ordered sequence that keeps the input order within each status is the sorted copy |
| TaskList.SortExample | components/task/TaskList.tsx:26-33 | statuses completed, pending, in progress, pending are shown in progress, first pending, second pending, completed |
| TaskList.RenderTaskList | components/task/TaskList.tsx:49-74 | the empty state exactly when there are no tasks; otherwise one card per task, the `i`-th showing the `i`-th sorted task with delay `50 * i` |
| TaskForm.WithoutTagId | components/task/TaskForm.tsx:165-170 | removal never lengthens the selection |
| TaskForm.WithoutTagIdMembers | components/task/TaskForm.tsx:165-170 | removal drops exactly the entries with that id and keeps every other one |
| TaskForm.WithoutAbsentIdIsIdentity | components/task/TaskForm.tsx:165-170 | removing an id that is not selected changes nothing |
| TaskForm.RemoveAtPosition | components/task/TaskForm.tsx:165-170 | with unique ids, removing the id at position `k` leaves the entries before and after it in order |
| TaskForm.WithoutPreservesUnique | components/task/TaskForm.tsx:165-170 | removal keeps at most one entry per id |
| TaskForm.ToggledTags | components/task/TaskForm.tsx:153-163 | the tag's id is selected afterwards exactly when it was not before; an unselected tag is appended at the end with the others kept in order; a selected one is removed as by WithoutTagId; entries with other ids are kept, none added |
| TaskForm.ToggledTagsPreservesUnique | components/task/TaskForm.tsx:153-163 | toggling keeps at most one entry per id |
| TaskForm.ToggledTwiceRestores | components/task/TaskForm.tsx:153-163 | toggling an unselected tag twice restores the selection |
| TaskForm.DefaultTask | components/task/TaskForm.tsx:60-69 | the record of a new task: id 0, empty title and description, pending, medium priority, user 0, no due date, no tags |
| TaskForm.OpenedFormData | components/task/TaskForm.tsx:95-107 | with no task, the default record; with a task, a copy whose description is the task's with null shown as `""`, whose tags are the task's with missing shown as `[]`, and whose other fields are the task's |
| TaskForm.SubmittedTask | components/task/TaskForm.tsx:172-180 | an empty description becomes null and any other description is kept; tags are always present; every other field passes through |
| TaskForm.OpenThenSubmit | components/task/TaskForm.tsx:95-180 | opening a task and saving it unedited gives it back up to the empty-description and empty-tags shaping |
| TaskForm.IsEditing | components/task/TaskForm.tsx:113 | edit mode exactly for a given task with a non-zero id; never without a task |
| TaskForm.TaskFormState.constructor | components/task/TaskForm.tsx:80-83 | starts from the default record, no date, calendar and tag selector closed |
| TaskForm.TaskFormState.Reset | components/task/TaskForm.tsx:95-111 | on open, the form data is the opened record, the date is the task's due date, both pop-ups close; when closed nothing changes |
| TaskForm.TaskFormState.HandleInputChange | components/task/TaskForm.tsx:115-120 | the title or description input changes that field only |
| TaskForm.TaskFormState.HandleStatusChange | components/task/TaskForm.tsx:122-127 | changes the status and nothing else |
| TaskForm.TaskFormState.HandlePriorityChange | components/task/TaskForm.tsx:129-134 | changes the priority and nothing else |
| TaskForm.TaskFormState.HandleDateSelect | components/task/TaskForm.tsx:136-143 | the date and the due date become the selection (or none), the calendar closes, nothing else changes |
| TaskForm.TaskFormState.ClearDate | components/task/TaskForm.tsx:145-151 | the date and the due date become empty, nothing else changes |
| TaskForm.TaskFormState.ToggleCalendar | components/task/TaskForm.tsx:304 | the due-date button flips the calendar |
| TaskForm.TaskFormState.ToggleTagSelector | components/task/TaskForm.tsx:349 | the tags button flips the tag selector |
| TaskForm.TaskFormState.ToggleTag | components/task/TaskForm.tsx:153-163 | the tags become ToggledTags of the old tags, nothing else changes, unique ids stay unique |
| TaskForm.TaskFormState.RemoveTag | components/task/TaskForm.tsx:165-170 | the tags lose every entry with that id, nothing else changes, unique ids stay unique |
| TaskForm.TaskFormState.HandleSubmit | components/task/TaskForm.tsx:172-180 | saves the shaped record SubmittedTask of the form data |
| Auth.LoginVerdict | hooks/use-auth.tsx:144-167 | a reply not marked `success === false` is accepted exactly when it carries a non-empty token and a user, keeping those two, and is otherwise an invalid response format; `success === false` is rejected with the reply's message, or "Login failed" when that is empty; a thrown request stays an error |
| Auth.AuthorizationHeader | hooks/use-auth.tsx:38-45 | a `Bearer ` header carrying the token exactly when a non-empty token cookie is present |
| Auth.AuthProvider.constructor | hooks/use-auth.tsx:67-71 | no user, loading, not authenticated |
| Auth.AuthProvider.ShouldRedirectToLogin | hooks/use-auth.tsx:238-240 | in a consistent state, the protected route redirects exactly when loading is over and no user is logged in |
| Auth.AuthProvider.InitializeAuth | hooks/use-auth.tsx:87-100 | without a token only loading stops and nothing is visited; with one the refresh rules apply, including the interceptor's visit to the login page on a 401 |
| Auth.AuthProvider.RefreshUser | hooks/use-auth.tsx:106-135 | authenticated with the reply's user exactly when the reply says success and has a user; otherwise cookie removed and logged out; the login page is visited exactly when the request failed with a 401 |
| Auth.AuthProvider.Login | hooks/use-auth.tsx:138-181 | on an accepted reply the cookie holds its token and its user is logged in; on any failure the cookie is removed, no one is logged in and the error is raised again; the login page is visited exactly when the request failed with a 401 |
| Auth.AuthProvider.Logout | hooks/use-auth.tsx:184-195 | whether or not the server call fails, the cookie is removed, no one is logged in, loading is over and the login page is visited, twice when the call failed with a 401 (interceptor, then finishLogout) |
| Auth.InterceptorRedirects | hooks/use-auth.tsx:53-56 | the response interceptor visits the login page once on a 401 and never otherwise |
| Auth.AuthProvider.FinishLogout | hooks/use-auth.tsx:198-208 | removes the cookie, logs out and goes to the login page |
| Auth.AuthProvider.OnResponseError | hooks/use-auth.tsx:50-60 | a 401 removes the cookie and goes to the login page; any other error changes nothing; RefreshUser, Login and Logout run it on their request's failure status before their own handling |

## Left out

- Status filtering of the task page and per-tag task counts live in other files. They are not part of this model.
- `getTextColor` (TaskForm.tsx and TagBadge.tsx) computes a floating-point luminance and can meet `parseInt` returning NaN. It is not modelled.
- Network calls, the cookie library, the router and `window.location` are replaced by outcome parameters, a cookie field and a ghost log of navigations.
- Cookie attributes (7-day expiry, `secure`, `sameSite`) are not modelled.
- React effect scheduling, async interleaving and races between start-up and other calls are not modelled. Each transition runs to completion.
- The tag list fetch for the form (`useQuery`) and the tag selector's search are not modelled.
- Auth.AuthProvider.InitializeAuth: its `catch` branch is not modelled. RefreshUser catches every error itself, so that branch cannot be reached.
- Auth.AuthProvider.Logout: past the response interceptor, the server's answer changes nothing, as in the source. The intermediate `isLoading = true` state is overwritten before the method returns.
- Auth.AuthProvider.OnResponseError: the full page reload caused by `window.location.href` is recorded as a navigation only. The state it would reset stays as it was. So `isAuthenticated` with no cookie is a reachable state of the model.
- Hex.UpperChar: upper-cases ASCII letters only, not locale-sensitive case mapping. The helpers only upper-case `#` and hex digits, where the two agree.
- TagSchema.ValidateTag: counts name length in Unicode scalar values, while JavaScript counts UTF-16 code units. Names with characters outside the Basic Multilingual Plane can differ in length.
- The text input's `maxLength={7}` attribute is not modelled. The keystroke gate already refuses anything longer.
- TaskForm.TaskFormState.HandleInputChange: covers the two inputs the form binds by name (title and description), not arbitrary names.
- Dates are opaque values. Parsing a `due_date` string with `new Date(...)` is the identity in the model.
- Status values outside the three the record type allows, and non-numeric ids, are not modelled.
- TaskList.SortForDisplay: works on values. The spread copy that keeps the caller's array untouched is implicit, and aliasing is not captured.
- Logging through `console.error` is not modelled.
- ColorPicker.ColorField.HandleInputBlur: the forwarding of the blur event to the optional `onBlur` callback (ColorPicker.tsx:58-60) is not modelled. It is a call into the caller's code and changes no state of the picker.
