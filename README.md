# Admin dashboard: client-side rules, in Dafny

This project models the business logic of a small web admin dashboard for
a service-booking platform. The dashboard is written as React components
over a REST API. The model covers:

- **Appointments**: the list of appointments the administrator sees, its
  update after approve, reject and reschedule succeed, the checks a
  reschedule must pass before it is sent (both times filled in, a start at
  least thirty minutes ahead, an end after the start, then the
  confirmation), the three filters over the list (provider, status, start
  date), and the rule that approved, rejected and cancelled rows, in any
  letter case, offer no more actions (`appointments.dfy`, a class
  `AppointmentTable` plus pure functions and lemmas).
- **Notifications**: the table's list and its copy in the shared
  notification context, kept equal by every handler; mark-read,
  mark-all-read, delete and clear-all; the choice of list from a
  response body (`notifications.dfy`).
- **Sidebar**: the unread count, the highlighted link and the red
  notification dot (`sidebar.dfy`, pure).
- **Category form**: required trimmed name and description, an optional
  `http://` or `https://` image URL, error clearing per field, and the
  create-or-update request (`categories.dfy`, a class `CategoryForm`).
- **Provider form**: the loosely typed form record, its update one field at
  a time, normalisation of a loaded `categoryId`, the required fields and
  positive price, and the multipart body built by a loop over the record
  (`providers.dfy`, a class `ProviderForm`).
- **Password-reset queue**: floor-rounded waiting minutes, the
  thirty-minute label, and removal of an approved request
  (`users.dfy`, a class `AdminUsers`).
- **Route guard**: the request middleware that sends non-administrators
  on `/dashboard` paths back to `/`, and the route matcher that decides
  where it runs (`middleware.dfy`, pure).

Shared modules: `Wrappers` (an `Option` type), `Lists` (JavaScript-style
`map` and `filter` over sequences, with their laws proved), `Text`
(ECMAScript `trim`, lower-casing, prefixes), and `Requests` (the create or
update request both editing forms send).

The clock (`Date.now()`), the answer to each confirmation dialog, the
outcome of each service call, the decoded admin flag and the parse of a
picked date-time are parameters of the operations that use them. A failed
service call is a `false` `serviceOk`; a failed fetch is `None`, or
`Failed` for the appointment list.

Where a component keeps React state, the model is a class whose fields are
that state and whose methods are its handlers; each method's `ensures`
gives the whole new state in terms of pure functions over the old one, and
the lemmas state what those functions guarantee.

## Model

| member | source | states |
|---|---|---|
| Appointments.WithStatus | components/appointments/AppointmentTable.tsx:52-58 | The status update of the list: one entry per entry of the list; what it does to each entry is stated by `WithStatusAt`. |
| Appointments.WithTimes | components/appointments/AppointmentTable.tsx:111-121 | The time update after a reschedule: one entry per entry of the list; what it does to each entry is stated by `WithTimesAt`. |
| Appointments.WithStatusAt | components/appointments/AppointmentTable.tsx:52-58 | A status update keeps the list length; an entry with the given id gets the new status with id, parties and times unchanged, and every other entry is unchanged. |
| Appointments.WithStatusIdempotent | components/appointments/AppointmentTable.tsx:52-58 | Setting the same status on the same id twice gives the same list as once. |
| Appointments.WithStatusAbsentId | components/appointments/AppointmentTable.tsx:52-58 | A status update for an id that is not listed leaves the list unchanged. |
| Appointments.WithTimesAt | components/appointments/AppointmentTable.tsx:111-121 | A reschedule replaces start and end only on entries with the rescheduled id; status, ids, other entries and length are unchanged. |
| Appointments.UpdatesKeepIds | components/appointments/AppointmentTable.tsx:52-121 | Neither the status update nor the time update changes the sequence of ids (order and length). |
| Appointments.RescheduleRefusal | components/appointments/AppointmentTable.tsx:84-103 | The checks before the reschedule call, in order; when it lets the request through, both fields are filled in, now + 30 min <= start < end and the user confirmed. |
| Appointments.RescheduleSentIff | components/appointments/AppointmentTable.tsx:84-103 | A reschedule is sent exactly when both fields are non-empty, now + 30 min <= start < end, and the user confirmed. |
| Appointments.RescheduleLeadBoundary | components/appointments/AppointmentTable.tsx:89-96 | A start exactly 1,800,000 ms after now is accepted; one millisecond earlier is refused as too soon. |
| Appointments.RescheduleCheckOrder | components/appointments/AppointmentTable.tsx:84-103 | The reason given is the first failing check in the order empty field, lead time, end after start, confirmation; each reason holds exactly under its condition. |
| Appointments.MatchesFilters | components/appointments/AppointmentTable.tsx:134-148 | The three filter conditions on the provider's name (a bare id string standing for itself, a missing provider for ""), the status and the start date, each skipped when its filter is empty; `FilterAppointmentsSpec` states what the list filter keeps. |
| Appointments.FilterAppointments | components/appointments/AppointmentTable.tsx:133-149 | The filtered list, never longer than the list; `FilterAppointmentsSpec` states which entries it keeps. |
| Appointments.FilterAppointmentsSpec | components/appointments/AppointmentTable.tsx:133-149 | The filtered list is an order-preserving subsequence of the list; an appointment is in it exactly when it is listed and every non-empty filter matches, and a matching one appears as many times as in the list. |
| Appointments.NoFiltersShowAll | components/appointments/AppointmentTable.tsx:133-149 | With all three filters empty the whole list is shown, in order. |
| Appointments.DateFilterOnIsoPrefix | components/appointments/AppointmentTable.tsx:145-146 | The date filter matches any start whose first ten characters are the chosen date. |
| Appointments.IsFinal | components/appointments/AppointmentTable.tsx:239-240 | The final-status test on the lower-cased status; its properties are stated by `IsFinalIgnoresCase` and `FinalWithoutCapitals`. |
| Appointments.ActionsFor | components/appointments/AppointmentTable.tsx:277-335 | The Actions cell: it offers the buttons only on a row whose status is not final; `ButtonsIff` gives the exact condition. |
| Appointments.ButtonsIff | components/appointments/AppointmentTable.tsx:277-335 | A row offers Approve, Reject and Reschedule exactly when it is not being rescheduled and its lower-cased status is none of approved, rejected, cancelled. |
| Appointments.IsFinalIgnoresCase | components/appointments/AppointmentTable.tsx:239-240 | Whether a status is final does not depend on its letter case. |
| Appointments.FinalWithoutCapitals | components/appointments/AppointmentTable.tsx:239-240 | A status without capital letters is final exactly when it is "approved", "rejected" or "cancelled"; any other, such as "pending", keeps its buttons. |
| Appointments.CapitalisedStatusIsFinal | components/appointments/AppointmentTable.tsx:239-240 | A capitalised "Rejected" is final as well. |
| Appointments.FinalAfterDecision | components/appointments/AppointmentTable.tsx:61-80 | After a successful approve or reject, the row with that id shows only its status unless it is being rescheduled. |
| Appointments.AppointmentTable.constructor | components/appointments/AppointmentTable.tsx:22-33 | The table starts with no appointments, no row being rescheduled and empty time fields. |
| Appointments.AppointmentTable.FetchAppointments | components/appointments/AppointmentTable.tsx:39-50 | The list becomes the response's `appointments` when that is an array, and empty when it is not or the request failed. |
| Appointments.AppointmentTable.UpdateStatus | components/appointments/AppointmentTable.tsx:52-58 | Only the list changes, to the status update for that id. |
| Appointments.AppointmentTable.HandleApprove | components/appointments/AppointmentTable.tsx:61-69 | After a successful call the entries with that id read "approved"; a failed call changes nothing. |
| Appointments.AppointmentTable.HandleReject | components/appointments/AppointmentTable.tsx:72-80 | After a successful call the entries with that id read "rejected"; a failed call changes nothing. |
| Appointments.AppointmentTable.OpenReschedule | components/appointments/AppointmentTable.tsx:328-330 | The Reschedule button selects that row for editing and changes nothing else. |
| Appointments.AppointmentTable.CancelReschedule | components/appointments/AppointmentTable.tsx:300-302 | Cancel clears the row selection and changes nothing else. |
| Appointments.AppointmentTable.SetNewStart | components/appointments/AppointmentTable.tsx:282-283 | The start field takes the typed value; nothing else changes. |
| Appointments.AppointmentTable.SetNewEnd | components/appointments/AppointmentTable.tsx:289-290 | The end field takes the typed value; nothing else changes. |
| Appointments.AppointmentTable.HandleRescheduleSave | components/appointments/AppointmentTable.tsx:83-130 | A refused reschedule reports its reason and changes nothing; a failed call changes nothing; a successful one writes the ISO times into that appointment only and resets the selection and both fields. |
| Notifications.SelectList | components/notifications/NotificationTable.tsx:51-54 | The list chosen from a response body, never a falsy value; `SelectListShapes` gives the response shapes. |
| Notifications.SelectListTruthy | components/notifications/NotificationTable.tsx:51-54 | The selected list is never falsy, and is the empty array when the body has no truthy `notifications` or `data` and is not an array. |
| Notifications.SelectListShapes | components/notifications/NotificationTable.tsx:51-54 | A `notifications` array wins even over a `data` array, a `data` array is used next, a bare array is used as it is, and falsy fields give the empty array. |
| Notifications.MarkRead | components/notifications/NotificationTable.tsx:72 | Mark-read on the list keeps its length; `MarkReadAt` states what it does to each entry. |
| Notifications.MarkAllRead | components/notifications/NotificationTable.tsx:82 | Mark-all-read keeps the length; `MarkAllReadAt` states what it does to each entry. |
| Notifications.Delete | components/notifications/NotificationTable.tsx:93 | Delete never lengthens the list; `DeleteSpec` states which entries it keeps. |
| Notifications.MarkReadAt | components/notifications/NotificationTable.tsx:72 | Mark-read sets `read` on exactly the entries with that id; ids, messages, dates, order and length stay. |
| Notifications.MarkReadIdempotent | components/notifications/NotificationTable.tsx:72 | Marking the same id read twice is the same as once. |
| Notifications.MarkReadAbsentId | components/notifications/NotificationTable.tsx:72 | Marking an id that is not listed changes nothing. |
| Notifications.MarkAllReadAt | components/notifications/NotificationTable.tsx:82 | Mark-all-read makes every entry read and changes nothing else about it; the length stays. |
| Notifications.DeleteSpec | components/notifications/NotificationTable.tsx:93 | Delete keeps an order-preserving subsequence holding exactly the entries with a different id, each as many times as it was listed. |
| Notifications.DeleteAbsentId | components/notifications/NotificationTable.tsx:93 | Deleting an id that is not listed changes nothing. |
| Notifications.DeleteIdempotent | components/notifications/NotificationTable.tsx:93 | Deleting the same id twice is the same as once. |
| Notifications.NotificationContext.constructor | src/context/NotificationContext.tsx:21-22 | The shared list starts as the empty array. |
| Notifications.NotificationTable.constructor | components/notifications/NotificationTable.tsx:22-25 | The table mounts with an empty list of its own and leaves the context as it is, which may still hold an earlier visit's list; the two copies agree exactly when the context is empty, and the first fetch syncs them in any case. |
| Notifications.NotificationTable.SyncState | components/notifications/NotificationTable.tsx:42-45 | Both the table's copy and the context's copy become the new list. |
| Notifications.NotificationTable.FetchNotifications | components/notifications/NotificationTable.tsx:47-62 | Both copies become the selected list of the response, or the empty array when the request failed. |
| Notifications.NotificationTable.HandleMarkRead | components/notifications/NotificationTable.tsx:68-76 | After a successful call both copies hold the list with that id marked read; a failed call changes nothing; the copies stay equal. |
| Notifications.NotificationTable.HandleMarkAllRead | components/notifications/NotificationTable.tsx:78-86 | After a successful call both copies hold every entry read; a failed call changes nothing; the copies stay equal. |
| Notifications.NotificationTable.HandleDelete | components/notifications/NotificationTable.tsx:88-97 | Only a confirmed and successful delete removes that id from both copies; otherwise nothing changes; the copies stay equal. |
| Notifications.NotificationTable.HandleClearAll | components/notifications/NotificationTable.tsx:99-108 | Only a confirmed and successful clear-all empties both copies; otherwise nothing changes. |
| Sidebar.UnreadCount | components/layout/Sidebar.tsx:33-35 | The unread count, never above the list length; `UnreadCountSpec` and `UnreadMembers` state what it counts. |
| Sidebar.IsActive | components/layout/Sidebar.tsx:98 | A link is highlighted when the path equals its address; `AtMostOneActive` states its property. |
| Sidebar.ShowsDot | components/layout/Sidebar.tsx:134 | The dot condition; `DotOnlyOnNotifications` states where it can show. |
| Sidebar.UnreadMembers | components/layout/Sidebar.tsx:33-35 | The entries counted are an order-preserving subsequence of the list, holding exactly the listed entries whose `read` is false, each as many times as it is listed. |
| Sidebar.UnreadCountSpec | components/layout/Sidebar.tsx:33-35 | The count never exceeds the list length, is zero exactly when every entry is read, and is zero for any value that is not an array. |
| Sidebar.MarkAllReadClearsCount | components/layout/Sidebar.tsx:33-35 | After mark-all-read the unread count is zero. |
| Sidebar.MarkReadLowersCount | components/layout/Sidebar.tsx:33-35 | Marking one notification read never raises the unread count. |
| Sidebar.AtMostOneActive | components/layout/Sidebar.tsx:20-27 | The six links have distinct addresses, so at most one link is highlighted for any path. |
| Sidebar.DotOnlyOnNotifications | components/layout/Sidebar.tsx:134 | The red dot shows on a link exactly when it is the Notifications link and the unread count is positive. |
| Categories.IsValidImageUrl | components/categories/CategoryForm.tsx:74 | The URL rule `^https?://.+` with the `i` flag; its properties are stated by the five lemmas below. |
| Categories.ImageUrlIgnoresCase | components/categories/CategoryForm.tsx:74 | The image URL rule gives the same answer for a URL and its lower-cased form. |
| Categories.HasSchemeIgnoresCase | components/categories/CategoryForm.tsx:74 | Whether a URL begins with a given scheme, followed by a character that is not a line break, does not depend on the URL's letter case. |
| Categories.SchemeAccepted | components/categories/CategoryForm.tsx:74 | A scheme without capitals followed by any text that starts with a character other than a line break passes the scheme test. |
| Categories.ImageUrlAccepted | components/categories/CategoryForm.tsx:74 | `http://` or `https://` followed by any text whose first character is not a line break is accepted (and, with `ImageUrlIgnoresCase`, in any letter case). |
| Categories.ImageUrlRefused | components/categories/CategoryForm.tsx:74 | `ftp://a`, a bare `http://`, and a line break right after the scheme are refused. |
| Categories.CollectErrors | components/categories/CategoryForm.tsx:63-77 | There is a name error exactly when the name is blank, a description error exactly when the description is blank, and an image error exactly when the image is non-empty and fails the URL rule. |
| Categories.PayloadFor | components/categories/CategoryForm.tsx:96-97 | The payload always holds name and description, and holds the image exactly when one was entered. |
| Requests.RequestFor | components/categories/CategoryForm.tsx:99-105 | A non-empty id gives an update of that id; an absent or empty one gives a create; either carries the body. The provider form chooses its request the same way (components/providers/ProviderForm.tsx:141-143). |
| Categories.CategoryForm.constructor | components/categories/CategoryForm.tsx:19-43 | The form starts with empty fields and no errors, titled "Edit Category" when an id was given and "Add Category" otherwise. |
| Categories.CategoryForm.LoadCategory | components/categories/CategoryForm.tsx:45-59 | When editing, a fetched category sets name and description (a missing description becomes ""); a failed fetch, or no id, changes nothing. |
| Categories.CategoryForm.OnNameChange | components/categories/CategoryForm.tsx:140-143 | Typing in the name sets it and clears the name error only. |
| Categories.CategoryForm.OnImageChange | components/categories/CategoryForm.tsx:167-170 | Typing in the image URL sets it and clears the image error only. |
| Categories.CategoryForm.OnDescriptionChange | components/categories/CategoryForm.tsx:196-199 | Typing in the description sets it and clears the description error only. |
| Categories.CategoryForm.ValidateForm | components/categories/CategoryForm.tsx:63-81 | The errors are replaced by the three rules' verdicts, each failing rule with its own message ("Name is required", "Description is required", "Enter a valid image URL"), and the form is valid exactly when no error remains. |
| Categories.CategoryForm.HandleSubmit | components/categories/CategoryForm.tsx:85-113 | The errors become the three rules' verdicts with their messages, as in `ValidateForm`; a request is sent exactly when they leave no error, and it is the create or update for the fields; the form goes back to the category list only when the service accepts it. |
| Text.Trim | components/categories/CategoryForm.tsx:66-72 | ECMAScript `trim`, never longer than its input; `TrimEmptyIffBlank` states when it is empty. |
| Text.ToLower | components/appointments/AppointmentTable.tsx:239 | Lower-casing character by character, keeping the length; each character is mapped by `LowerChar`. |
| Text.TrimEmptyIffBlank | components/categories/CategoryForm.tsx:66-72 | A string trims to "" exactly when every character is ECMAScript white space or a line terminator. |
| Providers.Lookup | components/providers/ProviderForm.tsx:115-121 | Reading a property of the form record, `undefined` when absent; `LookupAssign` ties it to `Assign`. |
| Providers.Assign | components/providers/ProviderForm.tsx:97-100 | `{...prev, [k]: v}` has the same number of entries or one more; `LookupAssign` and `AssignKeys` state what it holds. |
| Providers.ChangedValue | components/providers/ProviderForm.tsx:99 | The value `handleChange` stores: a number for the price, the text for any other field; `HandleChange` uses it. |
| Providers.LookupAssign | components/providers/ProviderForm.tsx:97-100 | After `{...prev, [k]: v}`, reading `k` gives `v` and reading any other key gives its old value. |
| Providers.AssignKeys | components/providers/ProviderForm.tsx:97-100 | Assigning an existing key keeps the key order; assigning a new key appends it. |
| Providers.AssignUnique | components/providers/ProviderForm.tsx:97-100 | Assigning keeps the record's keys distinct. |
| Providers.NormaliseCategoryId | components/providers/ProviderForm.tsx:78-81 | An object category is replaced by its `_id`, an array by `undefined` (an array is an object without `_id`), a `null` one makes the load fail, and any other value is kept. |
| Providers.NormaliseCategoryIdStable | components/providers/ProviderForm.tsx:78-81 | Normalising an already normalised category id changes nothing. |
| Providers.PriceInvalid | components/providers/ProviderForm.tsx:119 | The price check on a falsy or non-positive price; `PriceRule` states when a price passes. |
| Providers.PriceRule | components/providers/ProviderForm.tsx:119-120 | A numeric price passes exactly when it is positive; a missing or `null` price never passes. |
| Providers.CollectErrors | components/providers/ProviderForm.tsx:113-122 | Each of name, speciality, city, address and category has a "Required" error exactly when it is falsy, the price has "Invalid price" exactly when the price rule fails, and no other key has an error. |
| Providers.PayloadOf | components/providers/ProviderForm.tsx:135-139 | The multipart body, at most one part per form entry plus the avatar; `PayloadSpec` states which parts it holds. |
| Providers.PayloadSpec | components/providers/ProviderForm.tsx:135-139 | The body holds a field exactly when the form holds it with a value other than `undefined` or `null`, and holds the avatar file exactly when one was chosen. |
| Providers.BuildPayload | components/providers/ProviderForm.tsx:134-139 | The loop over the form's entries builds exactly the present fields in order, followed by the avatar when chosen. |
| Providers.ProviderForm.constructor | components/providers/ProviderForm.tsx:30-44 | The form starts with the initial record, no errors and no avatar, titled "Edit Provider" when an id was given and "Add Provider" otherwise; its keys are distinct. |
| Providers.ProviderForm.LoadProvider | components/providers/ProviderForm.tsx:69-88 | When editing, a fetched provider replaces the record with its category id normalised; a failed fetch, a `null` category or no id changes nothing; the keys stay distinct. |
| Providers.ProviderForm.HandleChange | components/providers/ProviderForm.tsx:91-102 | Only the named field changes, to a number for the price and to the text otherwise, and only that field's error is cleared; the keys stay distinct. |
| Providers.ProviderForm.HandleAvatarChange | components/providers/ProviderForm.tsx:105-110 | A chosen file becomes the avatar; no file keeps the previous one. |
| Providers.ProviderForm.ValidateForm | components/providers/ProviderForm.tsx:113-125 | The errors are replaced by the field rules' verdicts, "Invalid price" for the price and "Required" for any other failing field, and the form is valid exactly when no error key remains. |
| Providers.ProviderForm.HandleSubmit | components/providers/ProviderForm.tsx:128-152 | The errors become the field rules' verdicts with their messages, as in `ValidateForm`; a request is sent exactly when they leave no error, and it is the create or update carrying the present fields and the avatar; the form goes back to the provider list only when the service accepts it. |
| Users.WaitingMinutes | components/users/AdminUsers.tsx:63-65 | The result m is the floor of the elapsed time in minutes: m * 60000 <= now - requestedAt < (m + 1) * 60000. |
| Users.ActionFor | components/users/AdminUsers.tsx:118-128 | The Action cell by the 30-minute threshold; `ApprovedLabelIff` states it in milliseconds. |
| Users.WaitingMinutesUnique | components/users/AdminUsers.tsx:63-65 | Any whole number satisfying the floor bounds is the waiting time. |
| Users.WaitingMinutesMonotone | components/users/AdminUsers.tsx:63-65 | The waiting time never goes down as the clock moves forward. |
| Users.ApprovedLabelIff | components/users/AdminUsers.tsx:118-128 | The row reads "Approved" exactly when at least 1,800,000 ms have passed since the request; otherwise it offers the Approve button. |
| Users.RemoveUser | components/users/AdminUsers.tsx:57 | Removing the approved user never lengthens the queue; `RemoveUserSpec` states which entries it keeps. |
| Users.RemoveUserSpec | components/users/AdminUsers.tsx:57 | Removing an approved user keeps an order-preserving subsequence holding exactly the users with a different id, each as many times as it was listed. |
| Users.AdminUsers.constructor | components/users/AdminUsers.tsx:23 | The queue starts empty. |
| Users.AdminUsers.FetchUsers | components/users/AdminUsers.tsx:41-51 | A response replaces the queue; a failed request leaves it as it was. |
| Users.AdminUsers.HandleApproveRequest | components/users/AdminUsers.tsx:53-61 | A successful approval removes that user from the queue; a failed one changes nothing. |
| Middleware.Guard | middleware.ts:5-20 | The middleware's decision: a redirect only for a non-administrator, and then to the same URL with the path `/`; `RedirectIff` gives the exact condition. |
| Middleware.MatcherApplies | middleware.ts:22-24 | The matcher `/dashboard/:path*`: `/dashboard` itself or a path below it. |
| Middleware.Route | middleware.ts:5-24 | What a request meets: the guard where the matcher applies, so a redirect only on a matched path for a non-administrator; `MatchedPathsAreGuarded` states the rest. |
| Middleware.RootPasses | middleware.ts:8 | The path `/` always passes, whatever the admin flag. |
| Middleware.NonAdminRedirected | middleware.ts:6-16 | A non-administrator on a path starting with `/dashboard` is redirected to the same URL with only the path replaced by `/`. |
| Middleware.RedirectIff | middleware.ts:8-19 | The guard redirects exactly when the path starts with `/dashboard` and the caller is not an administrator; otherwise it passes. |
| Middleware.MatchedPathsAreGuarded | middleware.ts:22-24 | On every path the matcher accepts, an administrator passes and anyone else is redirected to `/`. |
| Middleware.PrefixLookalikeNotMatched | middleware.ts:10-24 | `/dashboardx` would be refused by the guard's prefix test, but the matcher never runs the guard on it, so it passes. |

## Left out

- Service calls, the HTTP client and the session token: every request is a parameter (its success, or the body it returned), and the admin flag the token decodes to is a boolean.
- Date parsing and formatting: a picked time is given as an `Instant`, the millisecond value `new Date(...)` denotes together with its ISO text. Invalid dates (NaN, for which every comparison is false) are not modelled.
- `Date.now()` is a parameter; requested-at stamps are integer milliseconds.
- Number and string conversions: the provider form's `Number(value)` for the price is done by the caller (an integer is passed), and the `String(value)` applied to each field before it is appended to the multipart body is not modelled (the model carries the value itself).
- Providers.PriceInvalid: compares only numeric prices with 0; comparing a string, array or object price with `<= 0` goes through JavaScript number conversion, which is not modelled, so such a non-empty price counts as valid.
- Text.ToLower: lower-cases ASCII letters only; full Unicode case mapping is not modelled (no non-ASCII character lower-cases into the status words the gate compares against, apart from the Kelvin sign, which is not in them).
- JavaScript strings are UTF-16 code units; the model's strings are sequences of Unicode scalar values.
- Confirmation dialogs, toasts and router navigation: a dialog's answer is a parameter; navigation is returned as the path the form goes to; toasts are not modelled.
- Loading flags, theme state and all styling (including the status colours); the display of user and provider names with "-" as the placeholder.
- The category list the provider form fetches for its select, and the avatar preview URL: they affect only what is displayed.
- An error the user clears by editing is modelled as removed; the components keep the key with the value `undefined`, which displays the same and is not counted as an error again until the next validation, which rebuilds the whole error object.
- The provider form's error messages are never shown by the component apart from the generic toast; the model records them all the same.
- Rules that no component code enforces (an approval deadline, slot availability, releasing a slot after a reject, marking past appointments as missed) are not modelled.
- Requests run one after another; interleaving of concurrent handlers is not modelled.
- Charts, the login page, the navigation bar and the other listing pages are not part of this model.
