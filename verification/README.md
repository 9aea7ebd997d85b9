# Office booking: request validators and booking approval

A Dafny model of the two pieces of logic in the coworking-office booking platform
that have a contract of their own:

- the storefront's request validators, `bookingSchema` (create a booking) and
  `viewBookingSchema` (check a booking by transaction id and phone number), written
  with zod. `Zod` models the part of zod's object validation they use: a request body
  is a map from keys to JavaScript values, a schema is an ordered list of field
  schemas, and validation reports one issue per failing field, tagged with the
  field's path. `ValidationBooking` builds the two schemas on top, gives a reference
  predicate for each (`BookingValid`, `ViewBookingValid`), and proves the per-field
  rules and messages;
- the admin panel's booking transaction resource. `BookingApproval` holds an
  immutable `Booking` record, the "Approve" action (`Approve`, `ApproveAction`), its
  visibility guard (`ApproveVisible`), the two texts the action builds (the admin
  notification and the customer's WhatsApp message), and the Unpaid -> Paid
  lifecycle. `AdminForm` holds the edit form's per-field rules.

Foreign calls are parameters: `Date.parse` enters as `dateParses: string -> bool`
(standing for `s => !isNaN(Date.parse(s))`), and PHP's `is_numeric` behind the
form's `numeric()` rule enters as `isNumeric: string -> bool`.

Files: `wrappers.dfy` (Option, Result), `zod.dfy`, `validation_booking.dfy`,
`booking_approval.dfy`, `admin_form.dfy`.

Behaviour of the code worth knowing:

- `office_space_id` must be a number of at least 1; there is no integer check, so
  1.5 is accepted (`OfficeSpaceIdNotInteger`).
- Paid is terminal only for the Approve action. The edit form's payment select
  offers "Not Paid" too, so an admin can return a paid booking to unpaid
  (`FormAdmitsUnpaid`).
- The customer message names the office space by its name.
- The WhatsApp message goes to a fixed number, not to the booking's phone number.
- The only protection against approving twice is the button's visibility. The
  action body itself checks nothing; run on a paid booking it would emit a second
  message (`UnguardedRunRepeatsMessage`).
- The storefront's `min(1)` rules do not trim, so `" "` is a valid name; the admin
  form's `required` rule trims, so `" "` is a missing name (`WhitespaceIsNonEmpty`,
  `WhitespaceIsMissing`).

## Model

| member | source | states |
|---|---|---|
| ValidationBooking.BookingSchema | reactfirstofficebwa/src/lib/validationBooking.ts:3-12 | the create-booking schema has four distinct keys (name, phone_number, started_at, office_space_id) and accepts a body exactly when `BookingValid` holds |
| ValidationBooking.ViewBookingSchema | reactfirstofficebwa/src/lib/validationBooking.ts:14-17 | the check-booking schema has two distinct keys (booking_trx_id, phone_number) and accepts a body exactly when `ViewBookingValid` holds |
| Zod.FieldIssues | reactfirstofficebwa/src/lib/validationBooking.ts:4-11 | a field yields no issue exactly when its schema accepts the value; otherwise one issue under the field's path: a type mismatch when the value has the wrong JavaScript type (the refinement then never runs), else the check's own message |
| Zod.ObjectIssues | reactfirstofficebwa/src/lib/validationBooking.ts:3-12 | an object has no issues exactly when every field is accepted; at most one issue per field, each tagged with one of the schema's keys |
| Zod.IssuesAtField | reactfirstofficebwa/src/lib/validationBooking.ts:3-12 | with distinct keys, the issues under a field's path are exactly that field's own issues: each failing field reports its own issue, independently of the others |
| Zod.SafeParse | reactfirstofficebwa/src/lib/validationBooking.ts:3-17 | success exactly when every field is accepted; the parsed object keeps exactly the schema's keys with their submitted values; a failure carries exactly the object's issues, at least one |
| ValidationBooking.BookingIssues | reactfirstofficebwa/src/lib/validationBooking.ts:3-12 | the create-booking request has no issues iff name and phone are non-empty strings, started_at is a string the date parser accepts and office_space_id is a number >= 1 |
| ValidationBooking.ViewBookingIssues | reactfirstofficebwa/src/lib/validationBooking.ts:14-17 | the check-booking request has no issues iff booking_trx_id and phone_number are both non-empty strings |
| ValidationBooking.BookingNameRule | reactfirstofficebwa/src/lib/validationBooking.ts:4 | `name` has no issue iff it is a string of length >= 1; the empty string gets "Name is required" |
| ValidationBooking.BookingPhoneRule | reactfirstofficebwa/src/lib/validationBooking.ts:5 | `phone_number` in the create-booking schema has no issue iff non-empty; the empty string gets "Phone number is required" |
| ValidationBooking.ViewPhoneRule | reactfirstofficebwa/src/lib/validationBooking.ts:16 | `phone_number` in the check-booking schema: the same rule and the same message |
| ValidationBooking.PhoneRuleShared | reactfirstofficebwa/src/lib/validationBooking.ts:5-16 | for any body, whatever the type of its `phone_number`, both schemas report exactly the issues of one shared rule, `min(1)` with "Phone number is required" |
| ValidationBooking.StartedAtRule | reactfirstofficebwa/src/lib/validationBooking.ts:6-8 | a string `started_at` is refused exactly when the date parser fails on it, with "Invalid date format" |
| ValidationBooking.OfficeSpaceIdRule | reactfirstofficebwa/src/lib/validationBooking.ts:9-11 | `office_space_id` passes iff it is a number >= 1, inclusive; a smaller number gets "Office space ID is required" |
| ValidationBooking.OfficeSpaceIdNotInteger | reactfirstofficebwa/src/lib/validationBooking.ts:9-11 | every number of at least 1 that is not a whole number passes the office rule, and a body whose other fields are valid then parses successfully: no integer check |
| ValidationBooking.TrxIdRule | reactfirstofficebwa/src/lib/validationBooking.ts:15 | `booking_trx_id` passes iff non-empty; the empty string gets "Booking TRX ID is required" |
| ValidationBooking.WhitespaceIsNonEmpty | reactfirstofficebwa/src/lib/validationBooking.ts:4-16 | no rule trims: a single space satisfies every `min(1)` rule of both schemas |
| ValidationBooking.ParseBooking | reactfirstofficebwa/src/lib/validationBooking.ts:3-12 | the typed create-booking request exists iff the body is valid, and carries the submitted values unaltered; otherwise the issues are returned |
| ValidationBooking.ParseCheckBooking | reactfirstofficebwa/src/pages/CheckBooking.tsx:36-42 | the check-booking gate: a typed request iff both fields are non-empty, carrying the submitted values; otherwise the issues |
| BookingApproval.Approve | backend/app/Filament/Resources/BookingTransactionResource.php:102-104 | the approved record is paid and agrees with the original on every other field |
| BookingApproval.ApproveVisible | backend/app/Filament/Resources/BookingTransactionResource.php:144 | the action is visible iff the booking is in the Unpaid state |
| BookingApproval.ApproveChangesOnlyUnpaid | backend/app/Filament/Resources/BookingTransactionResource.php:103-104 | approving changes the record iff it is unpaid, i.e. iff the action is visible; a paid record is left as is |
| BookingApproval.ApproveIdempotent | backend/app/Filament/Resources/BookingTransactionResource.php:103 | approving twice gives the same record as approving once |
| BookingApproval.ApproveFrame | backend/app/Filament/Resources/BookingTransactionResource.php:103-104 | two records approve to the same record iff they agree on every field but the payment flag |
| BookingApproval.ApproveIsOneShot | backend/app/Filament/Resources/BookingTransactionResource.php:100-144 | a visible approval takes the Unpaid -> Paid transition and only a visible one does; afterwards the action is never visible; Paid never shows it |
| BookingApproval.AdminNotificationBody | backend/app/Filament/Resources/BookingTransactionResource.php:109 | the notification body contains the transaction id, right after "The booking with TRX ID: " |
| BookingApproval.TrxIdOfNotification | backend/app/Filament/Resources/BookingTransactionResource.php:109 | reading a transaction id back from a body succeeds only on a body the template builds from that id |
| BookingApproval.NotificationRoundTrip | backend/app/Filament/Resources/BookingTransactionResource.php:109 | reading back the notification built from a transaction id yields that id |
| BookingApproval.NotificationInjective | backend/app/Filament/Resources/BookingTransactionResource.php:109 | distinct transaction ids give distinct notification bodies |
| BookingApproval.CustomerMessage | backend/app/Filament/Resources/BookingTransactionResource.php:116-118 | the customer text holds the name right after "Hi ", the transaction id right after ", pemesanan Anda dengan kode ", and the office space name right after "Silahkan datang kepada lokasi kantor " |
| BookingApproval.CustomerMessageOrder | backend/app/Filament/Resources/BookingTransactionResource.php:116-118 | the customer message contains the name, then the transaction id, then the office space name, non-overlapping and in that order |
| BookingApproval.ApproveAction | backend/app/Filament/Resources/BookingTransactionResource.php:102-141 | one run saves the paid record (other fields unchanged), shows "Booking Approved" with a body naming the record's transaction id, and hands the customer text to the fixed WhatsApp recipient and sender |
| BookingApproval.ClickApprove | backend/app/Filament/Resources/BookingTransactionResource.php:100-144 | clicks through the visibility guard: after one click or more the record is paid, no field but the flag changes, there are at most as many runs as clicks, and every run saved the final record |
| BookingApproval.ClicksApproveOnce | backend/app/Filament/Resources/BookingTransactionResource.php:100-144 | any number of clicks through the visibility guard ends in the approved record; the runs are exactly one run of the action on the original record for an unpaid booking, none for a paid one |
| BookingApproval.UnguardedRunRepeatsMessage | backend/app/Filament/Resources/BookingTransactionResource.php:102-144 | the action body on a paid booking leaves the record unchanged but still builds the message; only the hidden button prevents it |
| AdminForm.TextErrors | backend/app/Filament/Resources/BookingTransactionResource.php:29-39 | a text field passes iff present, not blank after PHP trim and at most 255 characters; a missing or blank value reports `required` only, and a filled value over 255 characters reports `max:255` only |
| AdminForm.NumericErrors | backend/app/Filament/Resources/BookingTransactionResource.php:41-49 | a numeric field passes iff present, not blank and numeric; a missing or blank value reports `required` only, and a filled non-numeric value reports `numeric` only |
| AdminForm.DateErrors | backend/app/Filament/Resources/BookingTransactionResource.php:51-55 | a date field passes iff present and not blank |
| AdminForm.SelectErrors | backend/app/Filament/Resources/BookingTransactionResource.php:57-68 | a select passes iff an option is chosen |
| AdminForm.AdminFormErrors | backend/app/Filament/Resources/BookingTransactionResource.php:24-70 | the form has no errors iff every field meets its own rules (the conjunction `AdminFormValid`); every error names one of the form's fields |
| AdminForm.FieldsPassIffValid | backend/app/Filament/Resources/BookingTransactionResource.php:24-70 | the nine fields pass their own rules one by one exactly when the reference conjunction `AdminFormValid` holds, in both directions |
| AdminForm.ReportedInForm | backend/app/Filament/Resources/BookingTransactionResource.php:24-70 | every error a field's own rules produce appears among the form's errors |
| AdminForm.OwnErrors | backend/app/Filament/Resources/BookingTransactionResource.php:24-70 | with distinct fields, the errors filed under a field are exactly that field's own errors |
| AdminForm.ErrorsPerField | backend/app/Filament/Resources/BookingTransactionResource.php:24-70 | each form field reports exactly its own rules' errors under its own field; a missing phone number, a missing name and an over-long name are each reported |
| AdminForm.NoCrossFieldConstraint | backend/app/Filament/Resources/BookingTransactionResource.php:51-55 | any filled start and end dates keep a valid form valid: an end date before the start date is not refused |
| AdminForm.FormAdmitsUnpaid | backend/app/Filament/Resources/BookingTransactionResource.php:57-62 | a valid form stays valid with "Not Paid" chosen; with no payment option chosen it reports exactly `is_paid` required |
| AdminForm.WhitespaceIsMissing | backend/app/Filament/Resources/BookingTransactionResource.php:29-31 | a name of only spaces and tabs is refused as missing |

## Left out

- Sending: the Filament notification's `send()` and the Twilio client (credentials read from the environment, the WhatsApp request) are I/O; `ApproveAction` returns what would be sent.
- Persistence: `save()`, soft deletion by the bulk action, and failures of either are not modelled; approval is a pure record update.
- BookingApproval.Approve: the record's created/updated/deleted timestamps are not part of `Booking`; `save()` also refreshes `updated_at`, so the frame holds of the modelled fields only.
- Framework UI: table columns, icons, colours, `requiresConfirmation`, searchable/preload options and page routing carry no logic of their own.
- `Date.parse` and PHP's `is_numeric` are foreign; they are the parameters `dateParses` and `isNumeric`.
- Zod.FieldIssues: every non-primitive value (array, plain object, function, date, ...) is one `Composite` value reported as `ObjectType`; zod names arrays, functions and dates separately ("array", "function", "date").
- zod's default messages for type mismatches: an `InvalidType` issue records the expected and received types but not zod's wording.
- Zod.JsValue: JavaScript numbers are finite reals; `Infinity` (which `z.number()` accepts) and floating-point rounding are not modelled.
- zod measures string length in UTF-16 code units and Dafny in code points; for the `min(1)` rules here the two agree.
- AdminForm.DateErrors: the date picker's date-format rule is not modelled; a date field is a presence check here, so a filled non-date string passes.
- AdminForm.SelectErrors: the office select's relationship check (that the chosen id names an existing office) is not modelled; a select is a presence check here.
- The storefront page's async request, its loading state and its PENDING/SUCCESS label are React state; only the validation gate is modelled (`ParseCheckBooking`).
- Server-side creation (transaction id generation, duration and amount derivation, overlap checks) and the check-booking lookup are not part of this model.
- BookingApproval.ApproveAction: the office name (`$record->officeSpace->name`), the Twilio credentials and the send itself are all evaluated after `save()`; if any of them throws (no office, missing credentials, a send error) the booking stays Paid, the button is hidden and no message goes out. The model always produces the message, and `ClicksApproveOnce` counts attempted runs, not deliveries.
- BookingApproval.ClicksApproveOnce: clicks are sequential with a fresh table in between; two clicks racing on a stale page are concurrency and are not modelled.
