# HostelLink, modelled in Dafny

HostelLink is a student-housing marketplace. Students search hostels near their school, book
inspections and pay a deposit. Caretakers list their hostels through a wizard. This project
models the logic in it that has definite rules:

- **Backend.** The Express routes for reservations and payments.
  - `POST /api/reservations` validates the body, inserts a PENDING reservation that expires in
    48 hours, then inserts a linked PENDING payment.
  - `GET /api/reservations/:id` returns the reservation with its payments and hostel, or 404.
  - The Paystack webhook checks the HMAC signature of the raw body. On `charge.success` it marks
    the payments carrying that reference as SUCCESS, converting kobo to naira, and stamps
    `depositPaidAt` on the linked reservation. The raw body is modelled as optional, because as
    the application mounts the route it is never captured (see "## Findings").
  - The database the two routes see is a `Store` class. Its fields are maps keyed by id, plus
    the unique index on the provider reference. Each database call is one method, specified by
    a function on the whole `StoreState`. An invariant `Valid` covers correct keys, the unique
    reference and foreign keys that resolve. The route handlers are methods proved equal to
    those functions.
- **Form validators.** These are the hand-written validators of `lib/validation.ts`: e-mail,
  Nigerian phone, required, length bounds, numeric bounds, and the booking, caretaker and
  contact forms. Each form collects one error per field, the first failing check of that
  field's chain. Lengths are JavaScript's `length`, which counts UTF-16 code units: a character
  beyond U+FFFF, such as an emoji, counts twice.
- **File selection.** The `FileUpload` widget checks type before size, caps the list at
  `maxFiles`, and removes a file and its preview in lock step.
- **Listing wizard and progress bar.** The four-step wizard has merged form data, submission
  success and failure, and a render precedence. The `Stepper` sorts each step into completed,
  current or upcoming.
- **Lists and small rules.**
  - the notification unread count, filter tabs, badge and relative-time buckets;
  - the student dashboard's booking search and status colours;
  - school suggestions and selection routing;
  - the search page's name filter and card mapping;
  - the caretaker modal's price, commission, payout and facility toggle;
  - the footer's Quick Links hrefs;
  - the `/admin` middleware guard.

Files:

- `wrappers.dfy` and `text.dfy` are shared. They cover JavaScript `trim`, UTF-16 `length`,
  ASCII `toLowerCase`, `includes`, first-occurrence `replace` and decimal rendering.
- `lists.dfy` covers `filter` and subsequences.
- `records.dfy`, `reservations.dfy` and `payments.dfy` are the backend.
- Each of the other files models one frontend source file.

A request body that fails schema validation in `POST /api/reservations` is answered with 500:
the route passes the zod error to `next`, and the application's only error handler
(`backend/src/index.ts` lines 28-31) answers every error with 500.

## Model

| member | source | states |
|---|---|---|
| Validation.ValidateEmail | lib/validation.ts:11-14 | Defines the e-mail pattern test; stated by `Validation.EmailIff`, `Validation.EmailSound` and `Validation.EmailComplete`. |
| Validation.ValidatePhone | lib/validation.ts:16-19 | Defines the phone test on the input without white space; stated by `Validation.PhoneIff` and `Validation.SpacesIgnored`. |
| Validation.EmailIff | lib/validation.ts:11-14 | The e-mail check accepts exactly the strings matching `^[^\s@]+@[^\s@]+\.[^\s@]+$`: no white space, one '@' with a non-empty local part, and a dot after it that is neither first nor last. |
| Validation.EmailSound | lib/validation.ts:11-14 | Every accepted address has the pattern's shape. |
| Validation.EmailComplete | lib/validation.ts:11-14 | Any `a@b.c` whose three parts are non-empty and free of white space and '@' is accepted. |
| Validation.EmailAtPosition | lib/validation.ts:11-14 | In such an address, the single '@' sits right after the local part. |
| Validation.PhoneIff | lib/validation.ts:16-19 | The phone check holds exactly when the input, with all white space removed, is an optional "+234" or "0", then 7/8/9, then 0/1, then exactly eight digits. |
| Validation.StripSpacesClean | lib/validation.ts:18 | Removing white space leaves none, and doing it twice changes nothing. |
| Validation.StripSpacesNone | lib/validation.ts:18 | A string without white space is left as it is. |
| Validation.StripGroups | lib/validation.ts:18 | Three space-separated groups join into one string. |
| Validation.PrefixesAccepted | lib/validation.ts:17 | A valid ten-digit core is accepted bare, after "0" and after "+234". |
| Validation.SpacesIgnored | lib/validation.ts:18 | White space never changes the verdict. |
| Validation.PhoneLocalExample | lib/validation.ts:16-19 | "0803 123 4567" is accepted. |
| Validation.PhoneBadPrefixExample | lib/validation.ts:16-19 | "0603 123 4567" is refused, because its first digit after the prefix is not 7, 8 or 9. |
| Validation.RequiredIff | lib/validation.ts:21-26 | A string is required-valid exactly when some character is not white space. Any number, including 0, is accepted. `undefined` and `null` are refused. |
| Validation.ValidateRequired | lib/validation.ts:21-26 | Defines `validateRequired`, with the string case on the trimmed length; stated by `Validation.RequiredIff`. |
| Validation.ValidateMinLength | lib/validation.ts:28-30 | Defines `validateMinLength` on the trimmed length in UTF-16 code units; stated by `Validation.LengthRulesBmp` and `Validation.EmojiMeetsMinimumOfTwo`. |
| Validation.ValidateMaxLength | lib/validation.ts:32-34 | Defines `validateMaxLength` on the trimmed length in UTF-16 code units; stated by `Validation.LengthRulesBmp`. |
| Validation.LengthRulesBmp | lib/validation.ts:28-34 | For text with no character beyond U+FFFF, both length rules compare the number of characters left after trimming. |
| Validation.EmojiMeetsMinimumOfTwo | lib/validation.ts:28-30 | A single emoji is one character but two code units, so it meets a minimum length of 2. |
| Text.Utf16Length | lib/validation.ts:29 | JavaScript's `length` lies between the number of characters and twice that number, and is 0 exactly for the empty string. |
| Validation.ParseFloat | lib/validation.ts:36-49 | `parseFloat` over integers: leading white space skipped, an optional sign, then the leading digits, or NaN when there are none; stated by `Validation.LeadingDigits`, `Validation.LeadingDigitsOfDigits` and `Validation.ParseDecimal`. |
| Validation.LeadingDigits | lib/validation.ts:36-49 | The digit run that `parseFloat` reads is the longest all-digit prefix. |
| Validation.ValidateNumber | lib/validation.ts:36-39 | Defines `validateNumber` on the parse; stated by `Validation.CaretakerPriceRange` and `Validation.ParseDecimal`. |
| Validation.ValidateMinValue | lib/validation.ts:41-44 | Defines `validateMinValue`: a parsed value at or above the bound; stated by `Validation.CaretakerPriceRange`. |
| Validation.ValidateMaxValue | lib/validation.ts:46-49 | Defines `validateMaxValue`: a parsed value at or below the bound; stated by `Validation.CaretakerPriceRange`. |
| Validation.LeadingDigitsOfDigits | lib/validation.ts:36-49 | An all-digit string is read whole. |
| Validation.ParseDecimal | lib/validation.ts:37 | The number parse reads back the decimal rendering of any natural number. |
| Validation.ParsedIsRequired | lib/validation.ts:142-146 | A string that parses to a number is never blank, so the price's "required" test passes whenever its number test does. |
| Validation.ReportCount | lib/validation.ts:71-108 | One field's report names only that field, at most once. |
| Validation.FieldCountAppend | lib/validation.ts:71-108 | An error list's per-field counts add up across concatenation. |
| Validation.InspectionDateFailure | lib/validation.ts:74-80 | The inspection date's chain; stated by `Validation.BookingCounts` and `Validation.PushInspectionDate`. |
| Validation.InspectionTimeFailure | lib/validation.ts:82-84 | The inspection time's chain; stated by `Validation.BookingCounts`. |
| Validation.FullNameFailure | lib/validation.ts:86-92 | The full name's chain; stated by `Validation.BookingFullNameRange`. |
| Validation.EmailFailure | lib/validation.ts:94-98 | The e-mail's chain; stated by `Validation.EmailAccepted`. |
| Validation.PhoneFailure | lib/validation.ts:100-104 | The phone's chain; stated by `Validation.BookingCounts` and `Validation.PushPhone`. |
| Validation.BookingMessageFailure | lib/validation.ts:106-108 | The optional message's check; stated by `Validation.BookingMessageRule`. |
| Validation.BookingErrors | lib/validation.ts:71-108 | The booking form's error list in field order; stated by `Validation.BookingCounts` and `Validation.BookingOnePerField`. |
| Validation.ValidateBookingForm | lib/validation.ts:63-114 | The booking errors are the fields' first failures in field order, and `isValid` holds exactly when the list is empty. |
| Validation.PushInspectionDate | lib/validation.ts:74-80 | The inspection date yields "required", invalid or past, whichever comes first. |
| Validation.PushInspectionTime | lib/validation.ts:82-84 | The inspection time is reported when blank. |
| Validation.PushFullName | lib/validation.ts:86-92 | The full name's chain is: required, then at least 2, then at most 100 UTF-16 code units after trimming. |
| Validation.PushPhone | lib/validation.ts:100-104 | The phone's chain is: required, then Nigerian pattern. |
| Validation.PushBookingMessage | lib/validation.ts:106-108 | A present, non-empty message is reported when it has more than 500 UTF-16 code units after trimming. |
| Validation.BookingOnePerField | lib/validation.ts:74-108 | No field is reported twice in the booking form. |
| Validation.BookingCounts | lib/validation.ts:71-108 | Each field appears in the booking errors exactly when its own chain fails. |
| Validation.BookingFullNameRange | lib/validation.ts:86-92 | The full name passes exactly when its trimmed length is from 2 to 100 UTF-16 code units inclusive. |
| Validation.BookingMessageRule | lib/validation.ts:106-108 | The message passes exactly when it is absent, empty, or at most 500 UTF-16 code units after trimming. |
| Validation.ApartmentNameFailure | lib/validation.ts:128-134 | The apartment name's chain; stated by `Validation.CaretakerCounts`. |
| Validation.LocationFailure | lib/validation.ts:136-140 | The location's chain; stated by `Validation.CaretakerCounts`. |
| Validation.PriceFailure | lib/validation.ts:142-150 | The price's chain; stated by `Validation.PriceAccepted`. |
| Validation.RoomTypeFailure | lib/validation.ts:152-154 | The room type's check; stated by `Validation.CaretakerCounts`. |
| Validation.FacilitiesFailure | lib/validation.ts:156-158 | The facilities' check; stated by `Validation.CaretakerListRules`. |
| Validation.DescriptionFailure | lib/validation.ts:160-166 | The description's chain; stated by `Validation.CaretakerCounts`. |
| Validation.PhotosFailure | lib/validation.ts:168-172 | The photos' check; stated by `Validation.CaretakerListRules`. |
| Validation.CaretakerErrors | lib/validation.ts:125-172 | The caretaker form's error list in field order; stated by `Validation.CaretakerCounts` and `Validation.CaretakerOnePerField`. |
| Validation.ValidateCaretakerForm | lib/validation.ts:116-178 | The caretaker errors are the fields' first failures in field order, and `isValid` holds exactly when the list is empty. |
| Validation.PushApartmentName | lib/validation.ts:128-134 | The apartment name's chain: required, at least 2, at most 100 UTF-16 code units after trimming. |
| Validation.PushLocation | lib/validation.ts:136-140 | The location's chain: required, at least 5 UTF-16 code units after trimming. |
| Validation.PushPrice | lib/validation.ts:142-150 | The price's chain: required, a number, at least 10,000, at most 10,000,000. |
| Validation.PushRoomType | lib/validation.ts:152-154 | The room type is reported when blank. |
| Validation.PushFacilities | lib/validation.ts:156-158 | An empty facility list is reported. |
| Validation.PushDescription | lib/validation.ts:160-166 | The description's chain: required, at least 20, at most 1000 UTF-16 code units after trimming. |
| Validation.PushPhotos | lib/validation.ts:168-172 | No photo, or more than 10, is reported. |
| Validation.CaretakerCounts | lib/validation.ts:125-172 | Each field appears in the caretaker errors exactly when its own chain fails. |
| Validation.CaretakerOnePerField | lib/validation.ts:128-172 | No field is reported twice in the caretaker form. |
| Validation.CaretakerPriceRange | lib/validation.ts:142-150 | The price passes exactly when it parses to a value from 10,000 to 10,000,000 inclusive. |
| Validation.PriceAccepted | lib/validation.ts:142-150 | The price chain has no failure exactly in that range. |
| Validation.CaretakerTextRanges | lib/validation.ts:128-140 | After trimming, the apartment name passes exactly for 2 to 100, the location exactly from 5, and the description exactly for 20 to 1000 UTF-16 code units. |
| Validation.CaretakerNameRange | lib/validation.ts:128-134 | The apartment name passes exactly for 2 to 100 UTF-16 code units after trimming. |
| Validation.ApartmentNameFailureIff | lib/validation.ts:128-134 | The apartment name's chain fails exactly outside 2 to 100 code units after trimming. |
| Validation.CaretakerLocationRule | lib/validation.ts:136-140 | The location passes exactly from 5 UTF-16 code units after trimming. |
| Validation.LocationFailureIff | lib/validation.ts:136-140 | The location's chain fails exactly below 5 code units after trimming. |
| Validation.CaretakerDescriptionRange | lib/validation.ts:160-166 | The description passes exactly for 20 to 1000 UTF-16 code units after trimming. |
| Validation.DescriptionFailureIff | lib/validation.ts:160-166 | The description's chain fails exactly outside 20 to 1000 code units after trimming. |
| Validation.CaretakerListRules | lib/validation.ts:156-172 | Facilities pass exactly when there is at least one. Photos pass exactly for 1 to 10. |
| Validation.ContactNameFailure | lib/validation.ts:187-191 | The contact name's chain; stated by `Validation.ContactValidIff`. |
| Validation.ContactMessageFailure | lib/validation.ts:199-205 | The contact message's chain; stated by `Validation.ContactValidIff`. |
| Validation.ContactErrors | lib/validation.ts:185-205 | The contact form's error list in field order; stated by `Validation.ContactValidIff`. |
| Validation.ValidateContactForm | lib/validation.ts:180-211 | The contact errors are the fields' first failures in field order, and `isValid` holds exactly when the list is empty. |
| Validation.PushContactName | lib/validation.ts:187-191 | The name's chain: required, at least 2 UTF-16 code units after trimming. |
| Validation.PushEmail | lib/validation.ts:193-197 | The e-mail's chain: required, then the pattern. |
| Validation.PushContactMessage | lib/validation.ts:199-205 | The message's chain: required, at least 10, at most 1000 UTF-16 code units after trimming. |
| Validation.ContactValidIff | lib/validation.ts:187-205 | The contact form is valid exactly when, after trimming, the name has at least 2 and the message 10 to 1000 UTF-16 code units, and the e-mail matches. |
| Validation.ReportsEmpty | lib/validation.ts:207-210 | Three reports join into an empty list exactly when each is empty. |
| Validation.EmailAccepted | lib/validation.ts:193-197 | The e-mail chain has no failure exactly when the pattern matches, since a matching address is never blank. |
| FileUpload.ValidateFile | components/FileUpload.tsx:29-37 | The type check, then the size check, each with its message; stated by `FileUpload.ValidateFileIff`. |
| FileUpload.Classify | components/FileUpload.tsx:44-53 | The batch split into accepted files and messages; stated by `FileUpload.ClassifyCounts`, `FileUpload.ClassifyValid` and `FileUpload.ClassifyBound`. |
| FileUpload.ValidateFileIff | components/FileUpload.tsx:29-37 | A file passes exactly when its type is accepted and its size is at most `maxSize`·1024·1024, so a file exactly at the limit passes. An unaccepted type gets the type message, whatever the size. |
| FileUpload.ClassifyCounts | components/FileUpload.tsx:44-53 | Every incoming file lands in exactly one of the accepted list and the error list. |
| FileUpload.ClassifyValid | components/FileUpload.tsx:44-53 | The accepted files passed `validateFile` and keep their input order. |
| FileUpload.ClassifyBound | components/FileUpload.tsx:48 | Starting at or below `maxFiles`, the list ends at or below it. Starting at the cap, nothing is accepted. |
| FileUpload.ClassifyAllAcceptable | components/FileUpload.tsx:44-53 | When every file is valid, the number accepted is the smaller of the batch size and the room left. |
| FileUpload.Partition | components/FileUpload.tsx:44-53 | The `forEach` loop builds exactly the classification: valid files and messages in input order. |
| FileUpload.Previews | components/FileUpload.tsx:61 | There is one preview URL per accepted file. |
| FileUpload.FileSelection.HandleFiles | components/FileUpload.tsx:39-66 | Accepted files and their previews are appended after the existing ones, and `errors` is replaced by this batch's messages. When nothing is accepted, the lists are unchanged and no change is reported. Files and previews stay the same length. |
| FileUpload.FileSelection.RemoveFile | components/FileUpload.tsx:68-75 | Exactly index i is removed from both files and previews, the rest keep their order, and the new list is reported. |
| FileUpload.RemoveKeepsLockStep | components/FileUpload.tsx:68-75 | Removing one index from two lists of equal length keeps them equal, one shorter when the index is in range. |
| Lists.Filter | components/NotificationSystem.tsx:48-53 | `Array.prototype.filter`; stated by `Lists.FilterMembership`, `Lists.FilterIsSubsequence`, `Lists.FilterAllPass` and `Lists.FilterAppend`. |
| Lists.WithoutIndex | components/FileUpload.tsx:69-70 | `filter((_, i) => i !== index)`; stated by `Lists.WithoutIndexIs`. |
| Lists.WithoutIndexIs | components/FileUpload.tsx:69-70 | Filtering out index i removes exactly that element when it is in range, keeping the rest in order, and changes nothing otherwise. |
| Lists.FilterMembership | components/NotificationSystem.tsx:48-53 | `filter` keeps exactly the elements satisfying the predicate. |
| Lists.FilterIsSubsequence | components/StudentDashboard.tsx:95 | `filter` keeps the original order and adds nothing. |
| Lists.FilterAllPass | components/NotificationSystem.tsx:52 | A predicate true for every element keeps the whole list. |
| Lists.FilterAppend | components/NotificationSystem.tsx:46 | Filtering distributes over concatenation. |
| Stepper.StatusOf | components/Stepper.tsx:19-49 | A step's status from its index and the current step; stated by `Stepper.StatusTrichotomy`. |
| Stepper.StatusTrichotomy | components/Stepper.tsx:19-49 | A step is completed exactly when it is below the current step, current exactly when equal, and upcoming exactly when above. |
| Stepper.Render | components/Stepper.tsx:17-52 | There is one view per step. |
| Stepper.ExactlyOneCurrent | components/Stepper.tsx:29-34 | For a current step inside the range, exactly that one step is marked current. |
| Stepper.AllCompletedAtEnd | components/Stepper.tsx:19 | With the current step one past the last, every step is completed and none is current. |
| Stepper.AllUpcomingBefore | components/Stepper.tsx:39-49 | With a negative current step, every step is upcoming. |
| Stepper.PaddingRule | components/Stepper.tsx:18 | Every step but the last is padded, and each view keeps its step's name. |
| ListHostel.StepView | app/caretakers/list-hostel/page.tsx:63-78 | `renderStep`: the form of steps 0 to 3, the success screen at 4, nothing otherwise; stated by `ListHostel.RenderPrecedence`. |
| ListHostel.Render | app/caretakers/list-hostel/page.tsx:95-106 | What the page shows; stated by `ListHostel.RenderPrecedence`. |
| ListHostel.RenderPrecedence | app/caretakers/list-hostel/page.tsx:95-106 | The spinner wins while submitting. Otherwise a non-empty error is shown. Otherwise steps 0..4 show their view and any other step shows nothing. |
| ListHostel.Wizard.HandleNext | app/caretakers/list-hostel/page.tsx:26-33 | The data is merged with its keys winning. On the last step the merged data is submitted, the step stays, and the submission starts. On any other step the step advances by one. |
| ListHostel.Wizard.HandlePrev | app/caretakers/list-hostel/page.tsx:35-37 | The step moves back by one, with no lower bound. |
| ListHostel.Wizard.BeginSubmit | app/caretakers/list-hostel/page.tsx:40-41 | The submission starts and the previous error is cleared. |
| ListHostel.Wizard.CompleteSubmit | app/caretakers/list-hostel/page.tsx:42-60 | An ok response advances the step. A non-ok response or a throw keeps the step and records the message. In all cases the submission ends. |
| ListHostel.FullPass | app/caretakers/list-hostel/page.tsx:26-61 | Four `handleNext` calls and an ok response submit the merged data of all steps and end on the success screen, one past the last step. |
| ListHostel.FailureShowsMessage | app/caretakers/list-hostel/page.tsx:100-103 | A failed submission on the last step shows its message, including the non-ok response's fixed message. |
| ListHostel.EmptyErrorShowsForm | app/caretakers/list-hostel/page.tsx:100-105 | An empty error string is falsy, so the form is shown again. |
| Notifications.Filtered | components/NotificationSystem.tsx:48-53 | The list a tab shows; stated by `Notifications.FilteredSpec`. |
| Notifications.BadgeOf | components/NotificationSystem.tsx:107-110 | The unread badge; stated by `Notifications.BadgeSpec`. |
| Notifications.ShowMarkAllRead | components/NotificationSystem.tsx:129-136 | Whether 'Mark all read' is offered; stated by `Notifications.ActionsConsistent`. |
| Notifications.ShowClearAll | components/NotificationSystem.tsx:244 | Whether 'Clear all' is offered; stated by `Notifications.ActionsConsistent`. |
| Notifications.FormatTimestamp | components/NotificationSystem.tsx:85-97 | The relative-time bucket; stated by `Notifications.FormatBuckets` and `Notifications.FormatMonotone`. |
| Notifications.AgeText | components/NotificationSystem.tsx:92-96 | The label of a bucket; stated by `Notifications.AgeTextLabels`. |
| Notifications.AgeTextLabels | components/NotificationSystem.tsx:85-97 | A timestamp's label is "Just now", a count of at least 1 in decimal digits followed by "m ago", "h ago" or "d ago" whose digits read back as the count, or the locale date. |
| Notifications.UnreadCount | components/NotificationSystem.tsx:46 | The unread count never exceeds the list length. |
| Notifications.UnreadZeroIff | components/NotificationSystem.tsx:46 | The count is 0 exactly when every notification is read. |
| Notifications.UnreadAppend | components/NotificationSystem.tsx:46 | The count adds up across concatenation. |
| Notifications.FilteredSpec | components/NotificationSystem.tsx:48-53 | Each tab keeps exactly its notifications, in order, and 'all' keeps the list as it is. |
| Notifications.UnreadTabCount | components/NotificationSystem.tsx:46-53 | The 'unread' tab shows exactly the unread count. |
| Notifications.FilterSame | components/NotificationSystem.tsx:48-53 | Predicates that agree everywhere filter alike. |
| Notifications.BadgeSpec | components/NotificationSystem.tsx:107-110 | The badge is hidden for 0, shows the number for 1 to 9, and shows "9+" from 10 on. |
| Notifications.ActionsConsistent | components/NotificationSystem.tsx:130-137 | 'Mark all read' is offered exactly when some notification is unread, and then 'Clear all' (line 244) is offered too. |
| Notifications.FloorDiv | components/NotificationSystem.tsx:88-90 | `Math.floor(diff / unit)` is the floor quotient, also for negative differences. |
| Notifications.FormatBuckets | components/NotificationSystem.tsx:85-97 | "Just now" exactly below one minute, negatives included. Below that: minutes below an hour, hours below a day, days below a week, and the locale date from a week on. Each count is at least 1 and below its bucket's limit. |
| Notifications.FormatMonotone | components/NotificationSystem.tsx:85-97 | An older notification never gets a finer bucket than a newer one. |
| StudentDashboard.FilteredBookings | components/StudentDashboard.tsx:95-100 | The bookings shown for a query and a status filter; stated by `StudentDashboard.FilteredBookingsSpec`. |
| StudentDashboard.GetStatusColor | components/StudentDashboard.tsx:102-115 | The badge colour of a status; stated by `StudentDashboard.StatusColorsDistinct`. |
| StudentDashboard.FilteredBookingsSpec | components/StudentDashboard.tsx:95-100 | A booking is shown exactly when its name or location contains the query, ignoring case, and the filter is 'all' or its status. The result keeps the original order. |
| StudentDashboard.EmptyQueryMatchesAll | components/StudentDashboard.tsx:96-97 | An empty query with filter 'all' shows every booking. |
| StudentDashboard.CancelledOnlyUnderAll | components/StudentDashboard.tsx:40 | A cancelled booking is shown only under 'all', because there is no 'cancelled' filter value. |
| StudentDashboard.ColorClassInjective | components/StudentDashboard.tsx:102-115 | Distinct colour names give distinct classes. |
| StudentDashboard.StatusColorsDistinct | components/StudentDashboard.tsx:102-115 | The four statuses get four distinct colours, and every other value gets gray. |
| CaretakerOnboarding.StrictNumber | app/caretakers/page.tsx:53 | `Number` over a string; stated by `CaretakerOnboarding.StrictNumberOfDigits`. |
| CaretakerOnboarding.Price | app/caretakers/page.tsx:53 | `Number(form.price)`, or 0 when that is falsy; stated by `CaretakerOnboarding.PriceSpec`. |
| CaretakerOnboarding.Commission | app/caretakers/page.tsx:54 | The rounded tenth of the price; stated by `CaretakerOnboarding.CommissionSplit`. |
| CaretakerOnboarding.Payout | app/caretakers/page.tsx:55 | The price less the commission; stated by `CaretakerOnboarding.CommissionSplit`. |
| CaretakerOnboarding.ToggleFacility | app/caretakers/page.tsx:64-69 | A facility checked or unchecked; stated by `CaretakerOnboarding.CheckAppends`, `CaretakerOnboarding.UncheckRemovesAll` and `CaretakerOnboarding.CheckThenUncheck`. |
| CaretakerOnboarding.SetField | app/caretakers/page.tsx:72 | One form field set by name; stated by `CaretakerOnboarding.SetFieldOnly`. |
| CaretakerOnboarding.PriceSpec | app/caretakers/page.tsx:53 | A blank or non-numeric price field counts as 0, and a plain decimal reads back as its value. |
| CaretakerOnboarding.StrictNumberOfDigits | app/caretakers/page.tsx:53 | `Number` reads a non-empty run of digits as its decimal value. |
| CaretakerOnboarding.CommissionSplit | app/caretakers/page.tsx:54-55 | Commission plus payout is the price. The commission is the price's tenth rounded to the nearest integer, halves up. For a non-negative price both parts lie between 0 and the price. |
| CaretakerOnboarding.CheckAppends | app/caretakers/page.tsx:64-68 | Checking appends the value at the end and leaves the rest unchanged. |
| CaretakerOnboarding.UncheckRemovesAll | app/caretakers/page.tsx:69 | Unchecking removes every occurrence of the value and keeps the rest in order. |
| CaretakerOnboarding.CheckThenUncheck | app/caretakers/page.tsx:64-69 | Checking then unchecking a value leaves exactly the list without that value. |
| CaretakerOnboarding.Modal.constructor | app/caretakers/page.tsx:26-36 | The form starts empty, at the coordinates (6.5244, 3.3792), and not loading. |
| CaretakerOnboarding.Modal.HandleChange | app/caretakers/page.tsx:57-74 | A 'facilities' event toggles the value. Any other event sets that one field. |
| CaretakerOnboarding.SetFieldOnly | app/caretakers/page.tsx:72 | Setting a field changes that field and no other. |
| CaretakerOnboarding.Modal.HandleLocationSelect | app/caretakers/page.tsx:76-82 | Only the coordinates and the location change. |
| CaretakerOnboarding.Modal.HandleFilesChange | app/caretakers/page.tsx:84-86 | Only the photos change. |
| CaretakerOnboarding.Modal.HandleSubmit | app/caretakers/page.tsx:88-90 | Submitting sets `loading`. |
| CaretakerOnboarding.Modal.SubmitDelayElapsed | app/caretakers/page.tsx:91-102 | After the delay the form is back to its initial values and `loading` is cleared. |
| HostelSearch.Suggestions | components/HostelSearch.tsx:30-39 | The suggestion effect; stated by `HostelSearch.SuggestionsSpec`. |
| HostelSearch.SuggestionsSpec | components/HostelSearch.tsx:30-39 | Queries of at most two UTF-16 code units give no suggestions. Longer ones give exactly the schools whose name contains the query, ignoring case, in list order. |
| HostelSearch.Search.constructor | components/HostelSearch.tsx:24-27 | The search starts with an empty query, no suggestions, no panel and no school. |
| HostelSearch.Search.SetQuery | components/HostelSearch.tsx:30-39 | Typing sets the query, and the suggestions follow it. |
| HostelSearch.Search.HandleSelectSchool | components/HostelSearch.tsx:41-50 | Ladoke Akintola University of Technology navigates to /hostels and leaves the panel alone. Any other school is selected and the panel shown. Every selection clears the query and the suggestions. |
| HostelSearch.Search.HandleNotifyMe | components/HostelSearch.tsx:52-68 | Nothing happens without a selected school and a non-empty e-mail. A successful write records school and e-mail, then hides the panel and clears the selection. A failed write keeps both. The suggestions stay in step with the query. |
| HostelSearch.NotifyPanelSpec | components/HostelSearch.tsx:92 | The panel is shown exactly when it is switched on and a school is selected, and it names that school. |
| SearchPage.Results | app/search/page.tsx:21-41 | The hostel list after a fetch; stated by `SearchPage.ResultsSpec`. |
| SearchPage.ResultsSpec | app/search/page.tsx:21-41 | With a null or empty query nothing is fetched or filtered. After an ok response the list is exactly the hostels whose name contains the query, ignoring case, as a subsequence of the response. A failed fetch leaves the list. |
| SearchPage.CardOf | app/search/page.tsx:48-57 | One hostel's card; stated by `SearchPage.CardsSpec`. |
| SearchPage.Cards | app/search/page.tsx:47 | There is one card per hostel. |
| SearchPage.CardsSpec | app/search/page.tsx:47-57 | Each card keeps id, name, price and facilities. The description stands in for the location, the first photo, if any, is the image, and the rating is 4.5. |
| Footer.Href | components/Footer.tsx:45 | Every href starts with '/'. |
| Footer.HrefOfLabel | components/Footer.tsx:45 | Every label but 'Home' maps to '/' plus its lower-cased form, with the first space replaced by '-' and then the first 'for-' removed. |
| Footer.DashAt | components/Footer.tsx:45 | The first-occurrence replace changes only the first space. |
| Footer.SlugFor | components/Footer.tsx:45 | A label starting with "for " loses exactly that word. |
| Footer.SlugAboutUs | components/Footer.tsx:45 | "about us" becomes "about-us". |
| Footer.SlugContact | components/Footer.tsx:45 | "contact" is left as it is. |
| Footer.AboutUs | components/Footer.tsx:42-45 | 'About Us' links to '/about-us'. |
| Footer.ForStudents | components/Footer.tsx:42-45 | 'For Students' links to '/students'. |
| Footer.ForCaretakers | components/Footer.tsx:42-45 | 'For Caretakers' links to '/caretakers'. |
| Footer.Contact | components/Footer.tsx:42-45 | 'Contact' links to '/contact'. |
| Footer.QuickLinkHrefs | components/Footer.tsx:42-45 | The five Quick Links map to '/', '/about-us', '/students', '/caretakers' and '/contact'. |
| Footer.QuickLinkNoSpace | components/Footer.tsx:42-45 | No Quick Link's href contains a space. |
| Middleware.Guard | middleware.ts:9-15 | The prefix test with an administrator flag; stated by `Middleware.DecideSpec`. |
| Middleware.Decide | middleware.ts:4-16 | The middleware with the flag fixed to false; stated by `Middleware.DecideSpec` and `Middleware.AdministratorRedirected`. |
| Middleware.DecideSpec | middleware.ts:9-15 | A path is redirected to '/' exactly when it starts with '/admin', and passed on otherwise. Only an administrator would pass. |
| Middleware.AdministratorRedirected | middleware.ts:11 | The raw prefix test would redirect '/administrator' too. |
| Middleware.MatchedRedirected | middleware.ts:18-20 | Every path the matcher admits starts with '/admin' and is redirected. |
| Middleware.AdministratorNotMatched | middleware.ts:18-20 | '/administrator' is not admitted by the matcher, so it never reaches the guard. |
| Text.Trim | lib/validation.ts:23 | `String.prototype.trim`; stated by `Text.TrimEmptyIff`, `Text.TrimIsSlice` and `Text.TrimIdempotent`. |
| Text.ToLower | components/HostelSearch.tsx:33 | ASCII `toLowerCase`; stated by `Text.ToLowerIdempotent`. |
| Text.Includes | components/HostelSearch.tsx:33 | `String.prototype.includes`; stated by `Text.IncludesIff` and `Text.IncludesEmpty`. |
| Text.StartsWith | middleware.ts:11 | `String.prototype.startsWith`; stated by `Middleware.DecideSpec`. |
| Text.ReplaceFirst | components/Footer.tsx:45 | `replace` with a string pattern; stated by `Text.ReplaceFirstAt` and `Text.ReplaceFirstAbsent`. |
| Text.TrimEmptyIff | lib/validation.ts:23 | A string trims to empty exactly when it is all white space. |
| Text.TrimIsSlice | lib/validation.ts:29 | Trimming yields a contiguous slice of the input. |
| Text.TrimIdempotent | lib/validation.ts:29 | Trimming twice is trimming once. |
| Text.ToLowerIdempotent | components/HostelSearch.tsx:33 | Lower-casing twice is lower-casing once. |
| Text.IncludesIff | components/HostelSearch.tsx:33 | `includes` holds exactly when the needle occurs at some position. |
| Text.IncludesEmpty | app/search/page.tsx:29 | Every string includes the empty string. |
| Text.IndexOf | components/Footer.tsx:45 | The index found is the first occurrence, or -1 when there is none. |
| Text.ReplaceFirstAt | components/Footer.tsx:45 | `replace` with a string pattern substitutes the first occurrence only. |
| Text.ReplaceFirstAbsent | components/Footer.tsx:45 | `replace` changes nothing when the pattern does not occur. |
| Text.DecimalRoundTrip | app/caretakers/page.tsx:53 | Reading back the decimal rendering of a natural number gives the number. |
| Text.DecimalInjective | app/caretakers/page.tsx:53 | Distinct numbers have distinct renderings. |
| Records.UniqueReference | backend/src/routes/payments.ts:27 | In a valid store two payments with the same reference are one payment, which is what `findUnique` by reference relies on. |
| Records.FindByRefSpec | backend/src/routes/payments.ts:27 | The lookup by reference finds a payment exactly when one carries the reference, and what it finds carries it. |
| Records.FindByRef | backend/src/routes/payments.ts:27 | `findUnique` by the reference; stated by `Records.FindByRefSpec`. |
| Records.UpdateByRef | backend/src/routes/payments.ts:22-25 | `updateMany` keeps the set of payments. |
| Records.UpdateByRefSpec | backend/src/routes/payments.ts:22-25 | Every payment with the reference gets the new status and amount, and every other payment is unchanged. An unknown reference changes nothing. |
| Records.UpdateByRefIdempotent | backend/src/routes/payments.ts:22-25 | The same update twice equals once. |
| Records.UpdateByRefValid | backend/src/routes/payments.ts:22-25 | The update keeps the store valid. |
| Records.InsertReservationValid | backend/src/routes/reservations.ts:21-29 | An insert whose id is new and whose student and hostel exist keeps the store valid. |
| Records.InsertPaymentValid | backend/src/routes/reservations.ts:31-40 | An insert with a new id, a free reference and existing links keeps the store valid, including the unique reference. |
| Records.StampReservationValid | backend/src/routes/payments.ts:28-33 | Stamping an existing reservation keeps the store valid. |
| Records.Store.CreateReservation | backend/src/routes/reservations.ts:21-29 | The reservation is inserted when its id is new and its links resolve. Otherwise the call fails and nothing changes. |
| Records.Store.CreatePayment | backend/src/routes/reservations.ts:31-40 | The payment is inserted, and its reference indexed, when the id and reference are new and the links resolve. Otherwise nothing changes. |
| Records.Store.UpdatePaymentsByRef | backend/src/routes/payments.ts:22-25 | Only the payments change, as the specification function says. |
| Records.Store.FindPaymentByRef | backend/src/routes/payments.ts:27 | The lookup returns the specification's answer and changes nothing. |
| Records.Store.UpdateReservation | backend/src/routes/payments.ts:28-33 | An existing reservation gets the stamp and status. An unknown id fails and changes nothing. |
| Records.Store.FindReservation | backend/src/routes/reservations.ts:50-53 | An unknown id gives none. A known one gives the row, its payments and its hostel. |
| Reservations.ParseBody | backend/src/routes/reservations.ts:8-17 | The zod schema's parse; stated by `Reservations.ParseBodySpec`. |
| Reservations.ProviderRefFor | backend/src/routes/reservations.ts:34 | The payment reference; stated by `Reservations.ProviderRefSpec`. |
| Reservations.PostReservation | backend/src/routes/reservations.ts:15-46 | The route's effect on the store and its answer; stated by `Reservations.CreatedIff`, `Reservations.CreatedRows` and `Reservations.PostKeepsValid`. |
| Reservations.ParseBodySpec | backend/src/routes/reservations.ts:8-17 | The schema accepts exactly UUID strings for both ids, a positive integer deposit and an optional string reference, and passes their values on unchanged. |
| Reservations.ProviderRefSpec | backend/src/routes/reservations.ts:34 | A supplied reference is used as it is. Otherwise the reference is "local-" followed by the millisecond time, so distinct times give distinct references. |
| Reservations.NewReservation | backend/src/routes/reservations.ts:21-29 | The reservation row the route inserts; stated by `Reservations.CreatedRows`. |
| Reservations.NewPayment | backend/src/routes/reservations.ts:31-40 | The payment row the route inserts; stated by `Reservations.CreatedRows`. |
| Reservations.Post | backend/src/routes/reservations.ts:15-46 | The handler's two inserts leave exactly the store and the response of the route's specification function. |
| Reservations.SchemaFailureNoInsert | backend/src/index.ts:28-31 | A body the schema refuses inserts nothing, and the error handler answers 500. |
| Reservations.CreatedRows | backend/src/routes/reservations.ts:19-42 | A 201 carries exactly the inserted rows. The reservation is PENDING and expires at now plus 172,800,000 ms. The payment is a PENDING "paystack" payment of the deposit, for the same student, linked to the reservation, with the fallback reference. |
| Reservations.CreatedIff | backend/src/routes/reservations.ts:15-46 | The request succeeds exactly when the body is accepted and both inserts go through. |
| Reservations.PaymentFailureKeepsReservation | backend/src/routes/reservations.ts:21-45 | When the payment insert fails, the reservation stays in the store and the answer is a 500. |
| Reservations.TakenReferenceFails | backend/src/routes/reservations.ts:31-40 | A supplied reference already in use makes the payment insert fail. |
| Reservations.PostKeepsValid | backend/src/routes/reservations.ts:15-46 | A valid store stays valid whatever the body. |
| Reservations.Get | backend/src/routes/reservations.ts:48-59 | An unknown id is a 404. A known one returns the reservation with its payments and hostel. The store is not changed. |
| Reservations.FoundDetail | backend/src/routes/reservations.ts:50-53 | In a valid store a found reservation's hostel exists, and its payments are exactly those linked to it. |
| Payments.SignatureChecked | backend/src/routes/payments.ts:11-13 | Whether the signature is looked at; stated by `Payments.SignatureSkipped`. |
| Payments.SignatureRejected | backend/src/routes/payments.ts:14-15 | A checked signature that differs from the HMAC; stated by `Payments.BadSignatureNoChange` and `Payments.GoodSignatureProcessed`. |
| Payments.ProcessEvent | backend/src/routes/payments.ts:18-36 | The event handling after the check; stated by `Payments.ChargeSuccessEffect`, `Payments.OtherEventNoChange` and `Payments.ReplayOnlyRestamps`. |
| Payments.Webhook | backend/src/routes/payments.ts:9-41 | The whole handler; stated by `Payments.WebhookKeepsValid`, `Payments.BadSignatureNoChange` and `Payments.MountedSignedDeliveryFails`. |
| Payments.MajorUnits | backend/src/routes/payments.ts:21 | The amount stored is the floor of the kobo amount over 100. |
| Payments.MinorUnitsRoundTrip | app/api/paystack/route.ts:16 | A naira amount sent as kobo (×100) comes back as the same naira amount. |
| Payments.HandleWebhook | backend/src/routes/payments.ts:9-41 | The handler's database calls leave exactly the store and the response of the webhook's specification function, including the 500 when a checked signature meets a body that was not captured. |
| Payments.BadSignatureNoChange | backend/src/routes/payments.ts:11-16 | With the raw body captured, a secret and a signature present and an HMAC that differs, the answer is 400 and nothing changes. |
| Payments.GoodSignatureProcessed | backend/src/routes/payments.ts:13-18 | With the raw body captured and a matching HMAC, the event is processed as if no check had run. |
| Payments.MountedSignedDeliveryFails | backend/src/routes/payments.ts:9-14 | With the raw body not captured, as behind the application-wide parser of `backend/src/index.ts` line 16, every checked delivery is answered 500 and changes nothing. |
| Payments.SignatureSkipped | backend/src/routes/payments.ts:13 | With no secret or no signature, the check is skipped and the event is processed, whether or not the raw body was captured. |
| Payments.OtherEventNoChange | backend/src/routes/payments.ts:19-36 | Any event other than `charge.success` with data is acknowledged and changes nothing. |
| Payments.UnknownReferenceNoChange | backend/src/routes/payments.ts:22-36 | A reference no payment carries changes nothing and is still acknowledged. |
| Payments.PaidKeepsLink | backend/src/routes/payments.ts:22-28 | Updating payments by reference does not change which reservation the reference links to. |
| Payments.LinkedExists | backend/src/routes/payments.ts:27-29 | In a valid store the linked reservation exists. |
| Payments.StampLinked | backend/src/routes/payments.ts:27-33 | The lookup and the deposit stamp; stated by `Payments.StampLinkedSpec`. |
| Payments.StampLinkedSpec | backend/src/routes/payments.ts:27-33 | The linked reservation, if any, is stamped with the time and PENDING, and the event is acknowledged. |
| Payments.ChargeSuccessEffect | backend/src/routes/payments.ts:19-34 | On `charge.success` the payments with the reference become SUCCESS with the amount in naira, and the others stay. Only the linked reservation changes, getting the stamp and PENDING. Students, hostels and the index stay. |
| Payments.WebhookKeepsValid | backend/src/routes/payments.ts:9-41 | The store stays valid, and in a valid store the handler answers 500 exactly when the signature is checked and the raw body was not captured. |
| Payments.ReplayOnlyRestamps | backend/src/routes/payments.ts:19-36 | Delivering the same event again leaves every payment as the first delivery did. The only change is the stamped reservation's `depositPaidAt`, which takes the new time. |
| Payments.CreateThenPay | backend/src/routes/payments.ts:19-34 | A reservation created by the POST route and then paid is left with its payment SUCCESS at the deposit amount and its reservation stamped at the payment time. |

## Left out

- The HMAC-SHA512 signature and its hex encoding (RFC 2104 over FIPS 180-4) are a function parameter `hmac(secret, rawBody)`. The raw body is an opaque byte sequence.
- Payments.BadSignatureNoChange: the 400 is stated for a captured raw body only. As the application mounts the route the body is never captured, and `Payments.MountedSignedDeliveryFails` states the 500 it gets instead.
- The environment variable `PAYSTACK_SECRET` is a parameter, with the empty string for "unset".
- Prisma's semantics are modelled as in-memory maps.
  - The database schema file is not part of this model, so the foreign keys are those implied by the route's `include` and the inserted columns.
  - `undefined` filter values in `updateMany`/`findUnique` are not modelled: the webhook event arrives decoded, with a string reference and an integer kobo amount.
  - Other event shapes are covered only as "no data".
- Database-generated ids are parameters, as is the clock. The POST route reads the clock twice, once for the expiry and once for the fallback reference, and each read is its own parameter.
- Requests are handled one at a time. Concurrent webhook deliveries and interleaved requests are left out.
- Reservations.SchemaFailureNoInsert: the 500 body carries the error's message, which comes from the zod library. It is not modelled.
- The reservation and payment columns beyond those the routes write, and the hostel columns beyond id and name, are left out.
- `validateDate` and `validateFutureDate` depend on JavaScript date parsing and the current day. The booking form takes them as predicate parameters.
- Numbers are integers throughout.
  - `parseFloat` and `Number()` read an optional sign and decimal digits. Fractions, exponents, hexadecimal and `Infinity` are not modelled.
  - CaretakerOnboarding.CommissionSplit: it states the integer rounding `(price + 5) / 10` rather than the binary floating-point `Math.round(price * 0.1)`.
- Lower-casing is ASCII only. White space is JavaScript's `\s` set, the WhiteSpace and LineTerminator characters of ECMA-262. Locale formatting (`toLocaleDateString`, currency display) is an opaque value.
- The network and storage are outcome parameters: the hostel-list fetch, the listing submission, and the Firestore waitlist write. `URL.createObjectURL` is a function parameter. Router navigation is a returned target.
- The caretaker modal's 1.2-second timer is split into two methods, `HandleSubmit` and `SubmitDelayElapsed`. The closing of the modal and the alert are not modelled.
- CaretakerOnboarding.Modal.HandleChange: an event for a name that is not a form field would add a new key to the form object. The model leaves the form unchanged instead.
- Presentation is left out: icons, animations, drag-and-drop highlighting, and colours other than `getStatusColor`.

## Findings

| source | as written | input that shows it | evidently intended | confidence | as-written member | corrected member |
|---|---|---|---|---|---|---|
| backend/src/routes/payments.ts:9-14 | `backend/src/index.ts` line 16 installs `bodyParser.json()` for the whole application before the payments router is mounted. The route's own `express.json({ verify })` then finds the body already read and skips, so `rawBody` is never set, and `update(undefined)` throws. | `PAYSTACK_SECRET` set and any non-empty `x-paystack-signature`, even the correct one: the answer is 500 and no payment is marked paid. | The raw bytes are kept, a wrong signature gets 400 and a correct one is processed. | not executed; rests on body-parser skipping a request whose body an earlier parser has read | Payments.MountedSignedDeliveryFails | Payments.GoodSignatureProcessed |
