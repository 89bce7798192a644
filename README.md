# PestHive screen rules in Dafny

PestHive is a mobile app for a pest-control business. Customers book, reschedule
and cancel appointments, keep a profile with saved addresses and payment
methods, and receive notifications. Technicians see their jobs, move them
through a three-step status track and read each job's history. The screens are
React Native components. Their rendering code holds small, sequential rules:
what a button requests, which error a validator sets, how a list changes after a
request succeeds. This project states those rules in Dafny and proves
properties of them.

Each awaited request becomes an `Outcome<T>` parameter (`Ok` with what the
server returned, or `Fail` with the error's message), so every handler is
modelled on both paths. Timestamps and "now" are integer milliseconds. React
state that handlers update in place becomes a `class` whose fields the methods
reassign, and each method's `ensures` states the whole new state. Pure lookups,
list transforms and view derivations become functions, and lemmas state what
they promise.

Modules (one per source file, plus two shared ones):

- `Common`: `Option`, `Outcome`, JavaScript truthiness and `||` on strings,
  `filter`, `trim` (with the ECMAScript whitespace set), ASCII case mapping,
  and decimal rendering of numbers.
- `AppointmentData`: the appointment record the appointment sections read.
- `AppointmentActions`, `ActivityLog`, `Notes`, `PriceDetails`, `Technicians`:
  the sections of the customer's appointment screen.
- `Notifications`, `NotificationBadge`: the notification drawer and the header bell.
- `JobItem`, `StatusUpdate`, `JobTimeline`: the technician's job card, status
  control and job history.
- `Addresses`, `PaymentMethods`: the customer profile's address book and payment methods.
- `Login`, `Badge`, `Theme`: the login screen, the badge component and the theme provider.

An async handler is split at its `await` where the state between the two parts
matters. `Addresses.AddressBook.StartSave` runs up to the request and records
it, together with the address list the handler's closure captured.
`Addresses.AddressBook.FinishSave` runs the continuation with the outcome. The
appointment submit handlers call an `Apply*Result` method for the part after
the `await`.

### Behaviour of the code worth knowing

- A failed reschedule, a failed note save, a failed mark-read or mark-all in
  the drawer, and a failed notification or address fetch are only logged. The
  model gives these paths no alert.
- The activity log is sorted with a stable sort, so entries with equal
  timestamps keep their input order. The model proves the result is sorted, a
  permutation of the input, and stable.
- The address form's required fields are checked for the empty string only;
  the code does not trim them. A street made of spaces passes.
- A failed notification load does not keep the old list. The fetch helper
  catches its own error and returns `[]`, so the list becomes empty.

## Model

| member | source | states |
|---|---|---|
| Common.OrElse | components/customer/appointment/notes-section.tsx:119 | `a \|\| b` on strings: the fallback is returned exactly when the first string is empty (or already equals the fallback); a non-empty string wins |
| Common.Reject | components/customer/profile/AddressSection.tsx:88 | `filter` with a dropped-element test: the result is no longer than the input and holds no dropped element |
| Common.RejectAppend | components/customer/profile/PaymentMethodsSection.tsx:71 | filtering works piecewise over concatenation, so kept elements keep their relative order |
| Common.RejectNothing | components/customer/appointment/assigned-technicians-section.tsx:18 | a filter that drops nothing returns its input |
| Common.RejectMultiset | components/customer/profile/AddressSection.tsx:88 | every element the filter keeps retains its multiplicity; every dropped one is gone |
| Common.RejectIn | components/customer/profile/AddressSection.tsx:88 | an element is in the result exactly when the input holds it and the filter does not drop it |
| Common.RejectMembers | components/customer/appointment/assigned-technicians-section.tsx:18 | every kept element comes from the input, and every element not dropped is kept |
| Common.RejectKeepsPairwise | components/customer/profile/AddressSection.tsx:88 | a filter keeps any relation that held between every earlier and later element (unique ids, one primary per type) |
| Common.TrimStart | components/customer/appointment/action-buttons-section.tsx:42 | the suffix left after stripping leading whitespace; what was stripped is all whitespace and the result does not start with whitespace |
| Common.TrimEnd | components/customer/appointment/action-buttons-section.tsx:42 | the prefix left after stripping trailing whitespace, with the same guarantees at the end |
| Common.TrimEmptyIffBlank | components/customer/appointment/action-buttons-section.tsx:42 | `trim()` yields "" exactly when every character is whitespace |
| Common.TrimsToEmpty | components/customer/appointment/notes-section.tsx:27 | `!s.trim()` holds exactly for blank strings |
| Common.ToLower | components/customer/appointment/activity-log-section.tsx:32 | `toLowerCase()` on ASCII: the same length, each A–Z letter mapped down, every other character kept |
| Common.ToUpper | components/customer/appointment/assigned-technicians-section.tsx:21-22 | `toUpperCase()` on ASCII, character by character |
| Common.ToLowerIdempotent | components/customer/appointment/activity-log-section.tsx:31-97 | lower-casing twice is lower-casing once |
| Common.NatToString | components/NotificationBadge.tsx:47 | decimal digits of a number, without a leading zero, one digit exactly below ten |
| Common.NatToStringValue | components/NotificationBadge.tsx:47 | reading back the rendered digits gives the number |
| Common.NatToStringInjective | components/NotificationDrawer.tsx:506 | distinct numbers render as distinct strings |
| Common.IntToString | components/NotificationDrawer.tsx:387 | `${n}` for an integer: a leading '-' exactly for a negative number, then decimal digits whose value is the number's magnitude |
| AppointmentActions.ActionsVisible | components/customer/appointment/action-buttons-section.tsx:168-170 | no buttons exactly for a missing appointment or status code 'completed' or 'cancelled' |
| AppointmentActions.RescheduleErrorsFor | components/customer/appointment/action-buttons-section.tsx:38-45 | the date, time and reason errors are set independently: each is set exactly when its own field is missing, with its fixed message, so every missing field is reported at once; a whitespace-only reason counts as missing |
| AppointmentActions.RescheduleValidIff | components/customer/appointment/action-buttons-section.tsx:38-45 | no error is set exactly when a date and a time are picked and the reason is not blank |
| AppointmentActions.CancelErrorFor | components/customer/appointment/action-buttons-section.tsx:134-139 | the cancel error is set exactly for a blank reason |
| AppointmentActions.ActionButtons.constructor | components/customer/appointment/action-buttons-section.tsx:26-36 | the initial state: an empty reschedule form, an empty cancel form, and no picker, sheet or submission open |
| AppointmentActions.ActionButtons.PresentRescheduleSheet | components/customer/appointment/action-buttons-section.tsx:117-124 | with an appointment, the date, time, reason and errors are reset and the sheet opens; without one nothing changes |
| AppointmentActions.ActionButtons.PresentCancelSheet | components/customer/appointment/action-buttons-section.tsx:126-132 | with an appointment, the cancel reason, its error and the submitting flag are reset and the sheet opens |
| AppointmentActions.ActionButtons.OpenDatePicker | components/customer/appointment/action-buttons-section.tsx:88 | shows the date picker and changes nothing else |
| AppointmentActions.ActionButtons.OpenTimePicker | components/customer/appointment/action-buttons-section.tsx:89 | shows the time picker and changes nothing else |
| AppointmentActions.ActionButtons.OnDateChange | components/customer/appointment/action-buttons-section.tsx:91-103 | a 'set' event with a date stores it and clears only the date error; the picker stays open only on iOS for an event that neither set nor dismissed |
| AppointmentActions.ActionButtons.OnTimeChange | components/customer/appointment/action-buttons-section.tsx:105-115 | the same for the time and its error |
| AppointmentActions.ActionButtons.TypeReason | components/customer/appointment/action-buttons-section.tsx:238-241 | typing the reason clears only the reason error |
| AppointmentActions.ActionButtons.TypeCancelReason | components/customer/appointment/action-buttons-section.tsx:303-306 | typing the cancel reason clears its error |
| AppointmentActions.ActionButtons.ValidateRescheduleForm | components/customer/appointment/action-buttons-section.tsx:38-45 | stores exactly `RescheduleErrorsFor` of the form; valid iff date and time are picked and the reason is not blank |
| AppointmentActions.ActionButtons.SubmitReschedule | components/customer/appointment/action-buttons-section.tsx:47-76 | no appointment, no effect; otherwise a post is requested exactly when validation passes; success resets the form, closes the sheet and refreshes; failure keeps date, time and reason; on the invalid path the errors are shown; `isSubmitting` ends false |
| AppointmentActions.ActionButtons.ApplyRescheduleResult | components/customer/appointment/action-buttons-section.tsx:61-68 | after the await: success clears the form, dismisses the sheet and refreshes; failure changes nothing |
| AppointmentActions.ActionButtons.SubmitCancel | components/customer/appointment/action-buttons-section.tsx:141-166 | a cancel is posted exactly for a non-blank reason; success clears the reason and refreshes; failure keeps the reason and raises the error alert; `isSubmittingCancel` ends false |
| AppointmentActions.ActionButtons.ApplyCancelResult | components/customer/appointment/action-buttons-section.tsx:149-165 | after the await: success clears and dismisses; failure raises "Could not cancel the appointment" and keeps the reason |
| ActivityLog.LookupsIgnoreCase | components/customer/appointment/activity-log-section.tsx:31-116 | icon, colour and badge depend only on the lower-cased action |
| ActivityLog.ActionIcon | components/customer/appointment/activity-log-section.tsx:31-51 | the icon is 'information-circle' exactly for an action outside the eight known ones |
| ActivityLog.StatusColor | components/customer/appointment/activity-log-section.tsx:56-67 | blue-grey exactly for a status code outside scheduled, in_progress, completed and cancelled |
| ActivityLog.ActionColor | components/customer/appointment/activity-log-section.tsx:54-89 | `status_changed` with a status code takes the status colour; blue-grey exactly for an unknown action, or for `status_changed` without a status code or with an uncoloured one |
| ActivityLog.BadgeDetails | components/customer/appointment/activity-log-section.tsx:92-116 | unknown actions give ('default', 'Updated'); `status_changed` gives "Status changed to " plus the lower-cased status name, or 'Status Changed' without a status; every variant is a known badge variant |
| ActivityLog.BadgeOnlyReadsAction | components/customer/appointment/activity-log-section.tsx:97-116 | for every action but `status_changed` the badge ignores the entry's status, comment and author |
| ActivityLog.Insert | components/customer/appointment/activity-log-section.tsx:209-213 | inserting into a most-recent-first list keeps it sorted and adds exactly the one entry |
| ActivityLog.SortLog | components/customer/appointment/activity-log-section.tsx:209-213 | the sorted copy has non-increasing timestamps and is a permutation of the input |
| ActivityLog.InsertAtTime | components/customer/appointment/activity-log-section.tsx:209-213 | insertion puts a new entry before any existing entries that share its timestamp |
| ActivityLog.SortLogStable | components/customer/appointment/activity-log-section.tsx:209-213 | the sort is stable: entries with equal timestamps keep their input order |
| ActivityLog.SortLogOfSorted | components/customer/appointment/activity-log-section.tsx:209-213 | an already sorted log comes back unchanged |
| ActivityLog.RowFor | components/customer/appointment/activity-log-section.tsx:235-270 | each row carries its entry, the badge text, icon and colour of its action; "by" the author's name as given when non-empty, and 'System' exactly when the author is missing or the name is empty or 'System'; the role exactly when truthy and the comment exactly when truthy, each as given |
| ActivityLog.RowsFor | components/customer/appointment/activity-log-section.tsx:235 | one row per entry, in the entries' order, each built from its entry |
| ActivityLog.Entries | components/customer/appointment/activity-log-section.tsx:235 | reads the entries off the rows, by index |
| ActivityLog.RenderLog | components/customer/appointment/activity-log-section.tsx:207-240 | nothing without an appointment; the empty state iff the log is empty; otherwise the rows' entries are exactly the sorted copy of the history (or the sample): sorted, a permutation, and with equal timestamps in input order; each row built from its entry |
| Notes.ToggleLabel | components/customer/appointment/notes-section.tsx:69 | 'Cancel' iff the input is shown; otherwise 'Add Note' iff notes exist, else 'Add First Note' |
| Notes.NotesBodyView | components/customer/appointment/notes-section.tsx:103-139 | the notes in order, the author shown as given when truthy and 'System' exactly when missing, empty or 'System'; a top border on every row but the first; the empty state only while the input is hidden |
| Notes.NoteEditor.constructor | components/customer/appointment/notes-section.tsx:22-25 | the input is hidden, the content empty, nothing saving, no error |
| Notes.NoteEditor.Toggle | components/customer/appointment/notes-section.tsx:60 | flips the input's visibility only |
| Notes.NoteEditor.Type | components/customer/appointment/notes-section.tsx:83 | stores the typed content only |
| Notes.NoteEditor.SaveNote | components/customer/appointment/notes-section.tsx:26-51 | blank content sets 'Empty Note' with no request and no saving flag; success calls the callback when given, clears the content and hides the input; failure keeps both; the handler never clears the error; `isSavingNote` ends false |
| PriceDetails.PriceCard | components/customer/appointment/price-details-section.tsx:16-52 | nothing without an appointment or service; the line and the total show the service price; the deferred-payment note iff 'pending' or 'confirmed'; 'Paid on <date>' iff 'completed' |
| PriceDetails.PaymentMessagesExclusive | components/customer/appointment/price-details-section.tsx:41-52 | the two payment messages never appear together, and a cancelled appointment shows neither |
| Technicians.SplitSpaces | components/customer/appointment/assigned-technicians-section.tsx:17 | `split(' ')`: at least one piece, none containing a space |
| Technicians.JoinSplit | components/customer/appointment/assigned-technicians-section.tsx:17 | joining the pieces with spaces gives the name back |
| Technicians.SplitJoin | components/customer/appointment/assigned-technicians-section.tsx:17 | splitting a space-join of space-free pieces gives the pieces back |
| Technicians.Words | components/customer/appointment/assigned-technicians-section.tsx:17-18 | the words are non-empty and contain no space |
| Technicians.WordsOfJoin | components/customer/appointment/assigned-technicians-section.tsx:17-18 | the words of a space-join of space-free pieces are exactly its non-empty pieces, in order |
| Technicians.Prefix | components/customer/appointment/assigned-technicians-section.tsx:20 | `substring(0, n)` clamps to the string's length |
| Technicians.InitialsOfWords | components/customer/appointment/assigned-technicians-section.tsx:18-22 | at most two characters; empty exactly for no words |
| Technicians.Initials | components/customer/appointment/assigned-technicians-section.tsx:15-23 | at most two characters; empty exactly for a missing or empty name or one with no words |
| Technicians.InitialsFromWords | components/customer/appointment/assigned-technicians-section.tsx:15-17 | the initials depend only on the words, the empty name included |
| Technicians.InitialsOfOneWord | components/customer/appointment/assigned-technicians-section.tsx:19-21 | one word gives its first two characters upper-cased |
| Technicians.InitialsManyWords | components/customer/appointment/assigned-technicians-section.tsx:22 | two or more words give the upper-cased first letters of the first and the last word |
| Technicians.InitialsIgnoreExtraSpaces | components/customer/appointment/assigned-technicians-section.tsx:17-18 | for any name split at its spaces, the initials are those of the non-empty pieces alone, so leading, repeated and trailing spaces do not matter |
| Technicians.SectionVisible | components/customer/appointment/assigned-technicians-section.tsx:35-37 | the card renders nothing exactly without an appointment or without technicians |
| Technicians.TechnicianRows | components/customer/appointment/assigned-technicians-section.tsx:47-70 | one row per technician, in order, with its initials and assignment time; a separator on every row but the last; the role chip exactly when the role is truthy, showing it; the name as given when truthy, 'N/A' exactly when it is missing, empty or 'N/A' |
| Notifications.MarkRead | components/NotificationDrawer.tsx:376-380 | only records with the id become read; everything else, the length and the order are unchanged |
| Notifications.MarkAllRead | components/NotificationDrawer.tsx:398 | every record is read and otherwise unchanged |
| Notifications.Unread | components/NotificationDrawer.tsx:406 | exactly the unread records of the list, each as often as the list holds it |
| Notifications.UnreadCount | components/NotificationDrawer.tsx:405-407 | the count is at most the list's length and zero exactly when every record is read |
| Notifications.MarkAllReadClearsCount | components/NotificationDrawer.tsx:395-402 | after mark-all, nothing is unread |
| Notifications.MarkReadAbsentId | components/NotificationDrawer.tsx:376-380 | marking an absent id changes nothing |
| Notifications.MarkReadIdempotent | components/NotificationDrawer.tsx:376-380 | marking twice is marking once |
| Notifications.MarkReadCount | components/NotificationDrawer.tsx:376-380 | marking an unread record with a unique id lowers the count by one; marking a read one leaves it |
| Notifications.NotificationIcon | components/NotificationDrawer.tsx:70-81 | the blue bell is the icon exactly outside the types job, system and alert; job a blue briefcase, system an indigo information circle, alert an amber warning |
| Notifications.NavigationTarget | components/NotificationDrawer.tsx:383-389 | navigates exactly for type 'job' with a truthy job id, to that job's route |
| Notifications.DisplayHour | components/NotificationDrawer.tsx:46 | `hours % 12 \|\| 12` is always in 1..12 and agrees with the hour modulo 12 |
| Notifications.TwoDigits | components/NotificationDrawer.tsx:47 | the minutes as exactly two digits denoting the same value |
| Notifications.ClockRoundTrip | components/NotificationDrawer.tsx:43-48 | the 12-hour hour and the AM/PM suffix give back the hour of the day |
| Notifications.TodayText | components/NotificationDrawer.tsx:43-48 | "Today at ", then the 12-hour clock hour (`hours % 12 \|\| 12`) in decimal, ':', two digits denoting the minutes, and 'PM' exactly from noon on, else 'AM' |
| Notifications.UnreadBanner | components/NotificationDrawer.tsx:503-507 | shown iff something is unread; 'notification' singular iff the count is 1 |
| Notifications.DrawerView | components/NotificationDrawer.tsx:480-530 | 'Mark all read' and the banner follow the unread count; a spinner while loading, else the list or the empty state |
| Notifications.NotificationDrawer.constructor | components/NotificationDrawer.tsx:164-165 | an empty list, loading |
| Notifications.NotificationDrawer.Load | components/NotificationDrawer.tsx:238-250 | the fetched list replaces the old one, a failed fetch empties it, and loading ends |
| Notifications.NotificationDrawer.Press | components/NotificationDrawer.tsx:370-393 | local state changes only after the remote mark-read succeeds, and then exactly by `MarkRead`; navigation only then |
| Notifications.NotificationDrawer.MarkAll | components/NotificationDrawer.tsx:395-402 | success marks every record read and zeroes the count; failure changes nothing |
| NotificationBadge.CountLabel | components/NotificationBadge.tsx:47 | '9+' exactly above nine; otherwise the one digit of the count |
| NotificationBadge.CountLabelInjectiveBelowCap | components/NotificationBadge.tsx:47 | counts up to nine have distinct labels |
| NotificationBadge.IconColor | components/NotificationBadge.tsx:41 | blue exactly when the bubble shows (count above 0) |
| NotificationBadge.NotificationCounter.constructor | components/NotificationBadge.tsx:11 | the count starts at 0 |
| NotificationBadge.NotificationCounter.Load | components/NotificationBadge.tsx:23-31 | on success the count is the number of unread fetched records; a failure keeps the previous count |
| JobItem.GetStatusInfo | components/JobItem.tsx:29-56 | the status table is total: 'Unknown' exactly outside the three job statuses, each job status its own variant, and every variant a known badge variant |
| JobItem.RoundHours | components/JobItem.tsx:97-99 | `Math.round(ms / 3600000)`: the nearest hour, halves rounded up |
| JobItem.TimeText | components/JobItem.tsx:91-124 | a completed job reads 'Completed' and is never urgent; no open job reads 'Completed' |
| JobItem.UrgentIff | components/JobItem.tsx:101-117 | urgent exactly for an open job due in less than 2.5 hours (every overdue job included) |
| JobItem.IsPastDue | components/JobItem.tsx:88-109 | every past-due job is urgent |
| JobItem.TimeTextBranches | components/JobItem.tsx:101-124 | 'Nh overdue' below a day, whole days overdue beyond it, 'Due now' below an hour, 'In Nh' below a day, and never urgent beyond a day |
| JobItem.DueNowIff | components/JobItem.tsx:110-117 | 'Due now' exactly during the half hour before the scheduled time |
| JobItem.DaysPlural | components/JobItem.tsx:118-124 | beyond a day: whole days, 'days' plural iff more than one |
| JobItem.Warning | components/JobItem.tsx:170-172 | the warning suffix appears exactly when urgent |
| StatusUpdate.NextStatus | components/job/StatusUpdate.tsx:93-95 | a request exactly for a job not completed, always a job status one step further along the track |
| StatusUpdate.ButtonLabel | components/job/StatusUpdate.tsx:88-101 | the button is shown exactly when there is a next status; 'Start Job' exactly when it requests 'in_progress', else 'Complete Job' |
| StatusUpdate.ShowsCompletedMessage | components/job/StatusUpdate.tsx:88-110 | the completion message shows exactly when the button does not |
| StatusUpdate.StepView | components/job/StatusUpdate.tsx:22-72 | exactly one step circle is lit per job status, none otherwise; the connectors light behind the current step |
| JobTimeline.TimelineIcon | components/job/ActivityTimeline.tsx:32-49 | 'time-outline' for every action outside the six |
| JobTimeline.TimelineColor | components/job/ActivityTimeline.tsx:52-69 | '#94a3b8' exactly for the actions outside the six |
| JobTimeline.TimelineIsCaseSensitive | components/job/ActivityTimeline.tsx:32-69 | no case folding: every action starting with an upper-case letter is unknown, with the neutral colour and default icon |
| JobTimeline.TimelineRows | components/job/ActivityTimeline.tsx:73-130 | one row per entry in order, with the caller's badge; an upper connector except on the first; a lower connector and margin except on the last; the author as given when truthy, 'System' exactly when missing, empty or 'System' |
| JobTimeline.TimelineKeepsOrder | components/job/ActivityTimeline.tsx:73 | no sorting: the rows' entries are the input |
| JobTimeline.ConnectorCounts | components/job/ActivityTimeline.tsx:74-86 | exactly one row lacks an upper connector and exactly one lacks a lower one |
| Addresses.DemoteOthers | components/customer/profile/AddressSection.tsx:117-124 | clears the primary flag of the other addresses of that type only; nothing else changes |
| Addresses.ReplaceById | components/customer/profile/AddressSection.tsx:113-115 | the server's record replaces the edited id; every other address stays |
| Addresses.AfterEdit | components/customer/profile/AddressSection.tsx:110-124 | the edited id gets the saved record; a primary save demotes only same-type addresses |
| Addresses.AfterAdd | components/customer/profile/AddressSection.tsx:126-138 | appended at the end, with the old order kept; a primary add demotes only same-type addresses |
| Addresses.FirstIndexOf | components/customer/profile/AddressSection.tsx:155 | the first position carrying the id, or none when no address has it |
| Addresses.AfterSetPrimary | components/customer/profile/AddressSection.tsx:156-164 | the target becomes primary, same-type addresses are demoted, other types are untouched |
| Addresses.EditKeepsInvariants | components/customer/profile/AddressSection.tsx:110-124 | an edit keeps ids unique and at most one primary per type; a primary saved record is the only primary of its type |
| Addresses.AddKeepsInvariants | components/customer/profile/AddressSection.tsx:126-138 | adding a new id keeps at most one primary per type; a new primary is the only one of its type |
| Addresses.SetPrimaryKeepsInvariants | components/customer/profile/AddressSection.tsx:156-164 | set-primary keeps the invariants, makes the target the only primary of its type, and leaves other types untouched |
| Addresses.SetPrimaryUnknownId | components/customer/profile/AddressSection.tsx:156-164 | an unknown id leaves the list unchanged |
| Addresses.RemoveById | components/customer/profile/AddressSection.tsx:88 | an address is kept exactly when it was in the list and carries another id |
| Addresses.RemoveKeepsInvariants | components/customer/profile/AddressSection.tsx:88 | delete removes exactly that id, keeps every other address with its multiplicity, and keeps both invariants |
| Addresses.AddressBook.constructor | components/customer/profile/AddressSection.tsx:26-40 | an empty list, the sheet closed, an empty billing form, not saving |
| Addresses.AddressBook.Fetch | components/customer/profile/AddressSection.tsx:42-52 | the server's list replaces the local one; failure keeps it |
| Addresses.AddressBook.AddAddress | components/customer/profile/AddressSection.tsx:54-68 | 'add' mode with a blank billing form and the sheet open |
| Addresses.AddressBook.EditAddress | components/customer/profile/AddressSection.tsx:70-74 | 'edit' mode with a copy of the address |
| Addresses.AddressBook.ChangeForm | components/customer/profile/AddressSection.tsx:191-299 | typing changes the form except while saving |
| Addresses.AddressBook.Dismiss | components/customer/profile/AddressSection.tsx:176-180 | the sheet closes unless a save is in flight |
| Addresses.AddressBook.Delete | components/customer/profile/AddressSection.tsx:76-97 | only a confirmed delete requests; success filters out the id, failure alerts and keeps the list; works on any list and keeps the invariants whenever they held before |
| Addresses.AddressBook.StartSave | components/customer/profile/AddressSection.tsx:99-109 | ignored while saving; an empty street, city, state or postcode alerts with no request; otherwise the request is recorded; works on any list and keeps the invariants whenever they held before |
| Addresses.AddressBook.FinishSave | components/customer/profile/AddressSection.tsx:110-149 | success rebuilds the list by `AfterEdit` or `AfterAdd` and closes the sheet, keeping the invariants when the server keeps ids; failure alerts and keeps the list; `isSaving` ends false |
| Addresses.AddressBook.StartSetPrimary | components/customer/profile/AddressSection.tsx:151-154 | ignored while saving; otherwise the request is recorded; works on any list and keeps the invariants whenever they held before |
| Addresses.AddressBook.FinishSetPrimary | components/customer/profile/AddressSection.tsx:156-171 | success applies `AfterSetPrimary` and keeps the invariants; failure alerts and keeps the list; `isSaving` ends false |
| PaymentMethods.WithDefault | components/customer/profile/PaymentMethodsSection.tsx:50-53 | `is_default` is true exactly for records with that id; nothing else changes |
| PaymentMethods.DefaultCount | components/customer/profile/PaymentMethodsSection.tsx:50-53 | after set-default the number of defaults equals the number of records with the id |
| PaymentMethods.ExactlyOneDefault | components/customer/profile/PaymentMethodsSection.tsx:50-53 | with unique ids, set-default of a listed id leaves exactly one default |
| PaymentMethods.WithDefaultIdempotent | components/customer/profile/PaymentMethodsSection.tsx:50-53 | set-default twice is set-default once |
| PaymentMethods.RemoveById | components/customer/profile/PaymentMethodsSection.tsx:71 | a method is kept exactly when it was in the list and carries another id |
| PaymentMethods.RemoveDropsId | components/customer/profile/PaymentMethodsSection.tsx:71 | delete leaves no record with that id |
| PaymentMethods.RemoveKeepsOthers | components/customer/profile/PaymentMethodsSection.tsx:71 | delete keeps every other record with its multiplicity |
| PaymentMethods.RemoveNonDefaultKeepsDefaults | components/customer/profile/PaymentMethodsSection.tsx:71 | deleting a non-default method keeps the number of defaults |
| PaymentMethods.PaymentMethodsSection.constructor | components/customer/profile/PaymentMethodsSection.tsx:16-17 | an empty list, loading |
| PaymentMethods.PaymentMethodsSection.Fetch | components/customer/profile/PaymentMethodsSection.tsx:19-31 | the fetched list replaces the old one; loading ends on both paths |
| PaymentMethods.PaymentMethodsSection.AddPaymentMethod | components/customer/profile/PaymentMethodsSection.tsx:33-45 | only the 'coming soon' alert |
| PaymentMethods.PaymentMethodsSection.SetDefault | components/customer/profile/PaymentMethodsSection.tsx:47-57 | success applies `WithDefault`, so the defaults are the records with the id; failure alerts and keeps the list |
| PaymentMethods.PaymentMethodsSection.Delete | components/customer/profile/PaymentMethodsSection.tsx:59-79 | only a confirmed delete requests; success filters out the id, failure alerts and keeps the list |
| Login.EmailError | app/login.tsx:41-47 | 'Email is required' iff empty; 'Please enter a valid email' iff non-empty without '@' or '.' |
| Login.PasswordError | app/login.tsx:49-55 | 'Password is required' iff empty; the minimum-length error iff shorter than 6 characters |
| Login.IsFormValid | app/login.tsx:80 | the button is enabled exactly when validation finds no error |
| Login.RedirectTarget | app/login.tsx:68 | '/(technician)' iff the user type is 'technician', else '/(customer)' |
| Login.LoginScreen.constructor | app/login.tsx:26-30 | empty fields, no errors, not loading, password hidden |
| Login.LoginScreen.TypeEmail | app/login.tsx:153-158 | typing the email clears only the email error |
| Login.LoginScreen.TypePassword | app/login.tsx:177-182 | typing the password clears only the password error |
| Login.LoginScreen.ToggleShowPassword | app/login.tsx:185 | flips the visibility only |
| Login.LoginScreen.HandleLogin | app/login.tsx:33-78 | both field errors are set together and no request is sent while any is set; a success with a token redirects by type; a failure sets only the general error (the message or the fallback); loading ends false |
| Badge.LightStyles | components/Badge.tsx:23-129 | the light table has an entry for exactly the badge variants |
| Badge.DarkStyles | components/Badge.tsx:132-238 | the dark table has an entry for exactly the badge variants |
| Badge.StyleTable | components/Badge.tsx:249 | the dark table iff the scheme is 'dark' |
| Badge.ResolveStyle | components/Badge.tsx:268 | a known variant's own style; otherwise the 'default' style |
| Badge.UnknownVariantIsDefault | components/Badge.tsx:268 | an unknown or missing variant is styled like 'default' |
| Badge.TextSize | components/Badge.tsx:251-257 | 'text-sm' exactly for 'lg', otherwise 'text-xs' |
| Badge.IconSize | components/Badge.tsx:259-265 | 16 exactly for 'lg', otherwise 14 |
| Badge.SizesAgree | components/Badge.tsx:251-265 | text and icon grow together, and only for 'lg' |
| Badge.Render | components/Badge.tsx:288-300 | the icon only when given; icon and label share the variant's text colour; the resolved style's background and border |
| Theme.InitialTheme | context/ThemeContext.tsx:67 | 'dark' exactly when the system scheme is dark, else 'light' |
| Theme.ToggleTarget | context/ThemeContext.tsx:100-103 | toggling lands on one of the two themes, never the current one |
| Theme.ToggleTwice | context/ThemeContext.tsx:100-103 | toggling twice returns to the start exactly for a light or dark start |
| Theme.ColorsFor | context/ThemeContext.tsx:105 | the light colours exactly for 'light', the dark ones for any other string |
| Theme.IsDark | context/ThemeContext.tsx:106 | `isDark` implies the dark colours; any other stored string gets dark colours without `isDark` |
| Theme.UseTheme | context/ThemeContext.tsx:120-126 | an error exactly outside a provider, otherwise the provided value |
| Theme.ThemeProvider.constructor | context/ThemeContext.tsx:67-68 | the system theme, loading |
| Theme.ThemeProvider.Provided | context/ThemeContext.tsx:105-114 | nothing while loading, then the theme with its derived colours and flag |
| Theme.ThemeProvider.LoadSaved | context/ThemeContext.tsx:71-86 | a stored value replaces the theme; a missing one or a failed read keeps it; loading ends either way |
| Theme.ThemeProvider.SetTheme | context/ThemeContext.tsx:90-98 | the theme and colour scheme change only after the preference is stored |
| Theme.ThemeProvider.Toggle | context/ThemeContext.tsx:100-103 | set-theme with the toggle target |

## Left out

- The hard-coded sample data: the drawer's appended test notifications, the activity log's sample list (a parameter of `ActivityLog.RenderLog`) and the auth service's mock users.
- Requests themselves: URLs, payloads, axios, the auth token and storage are not modelled. Each request is an `Outcome` parameter, and logging calls are not modelled.
- Clock and locale formatting: `toLocaleDateString`/`toLocaleTimeString`, the today and yesterday tests and the fixed "Yesterday at 9:30 AM" text are not modelled. `Notifications.TodayText` takes the local hour and minute as parameters.
- JobItem.IsPastDue and JobItem.TimeText: the component reads the clock twice (`new Date()` for the past-due flag and again inside `getTimeText`); the model uses one `now` for both, so it does not capture the clock advancing between the two reads.
- Timers and motion: the badge's 60-second polling, the note save's one-second delay, the navigation `setTimeout`, the drawer's animation and its pan gesture (float velocities) are not modelled.
- AppointmentActions.ActionButtons.OnDateChange: stores the picked date as given; the truncation to local midnight is not modelled (a clock operation).
- Common.ToLower: ASCII only, because Unicode case mapping is out of scope; `ToUpper` likewise.
- Strings are sequences of code points, not UTF-16 units, so a character outside the Basic Multilingual Plane counts once in lengths and substrings.
- Badge.ResolveStyle: inherited `Object.prototype` keys (such as "constructor") are treated as unknown variants.
- Concurrency beyond the split at each `await` is not modelled: two handlers interleaving and a component unmounting mid-request.
- Notes.NoteEditor.SaveNote: one method for both sides of the await. `isSavingNote` is true only while the request is pending, so after the call it reads false on every path.
- Addresses.AddressBook.Delete and PaymentMethods.PaymentMethodsSection.Delete: the confirmation dialog is a `confirmed` parameter.
- Addresses.AddressBook.FinishSave: keeps the invariants only under `ServerKeepsIds`, an assumption about the server (it echoes the edited id, or hands out a new one). It is stated as a premise, because the client never checks it.
- Disabling buttons and inputs while submitting is a rendering matter and is not modelled, except where the handler itself checks the flag.
- `handleCallTechnician` only logs, so it is not modelled.
- JobTimeline.TimelineRows: an entry keeps only its author's name, so an author without a name and a missing author are the same `None`.
- The layout-only components, the detail screens, the auth context and the profile sections other than addresses and payment methods are not part of this model.
