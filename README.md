# Booking and contact logic of a cleaning-services site, in Dafny

The site has two pieces of behaviour beyond static markup. This project models both and proves what they promise.

- **The date and time step of the booking flow** (`booking.dfy`, module `Booking`). The page lists fourteen date cards, from today onwards. It lists three fixed arrival windows. Picking a date sets it and clears the chosen window. Picking a window sets it. The continue button is disabled until both are chosen. When enabled, it stores `{date, time}` in the booking store and pushes `/book/confirmation` on the router. The class `SchedulePage` holds the page state (`selectedDate`, `selectedTime`, the store's arrival window and the pushed routes) and has one method per handler. Each method is proved against a pure function on `PageState`. The main invariant is proved over every sequence of clicks the page offers: a time is chosen only once a date is, the date is one of the cards, and the time is one of the three labels.
- **The contact form** (`contact.dfy`, module `Contact`). This covers the validation schema for the five fields and the message shown under each field. It covers the sanitising step (trim each field, then the HTML sanitiser), the three-way classification of failed submissions, and the class `ContactForm`. `ContactForm.HandleSubmit` validates the form. It then either shows the failures or makes one create call. On success it resets the form; on failure it shows the classified message and keeps the form as it was.
- **JavaScript string semantics** (`js_text.dfy`, module `JsText`). This gives the characters that `\s` matches and `trim` strips, `String.prototype.trim`, and `length` counted in UTF-16 code units. The schema library measures string length that way.

Foreign code and the environment become parameters:

- `emailOk: string -> bool` is the schema library's e-mail check.
- `purify: string -> string` is the HTML sanitiser.
- `Option<Thrown>` is the outcome of the document-store create call: `None` means it succeeded and `Some(e)` means it threw `e`.
- `dayOfMonth` and `month` are the calendar.
- `today` and `now` are the clock.

Days are whole days counted from 1970-01-01, so the day of the week is computed: day 0 was a Thursday.

Two places where the form's code says less, or something other, than its user interface suggests; the model follows what the code checks:

- The service picker offers three values (`components/contactForm.tsx`, lines 203-207), but the schema declares `services` as a plain string (line 49). Any string passes, including the empty default of a form whose picker was never touched (`Contact.ServicesUnconstrained`).
- The message limit is 800 code units (line 53), while the error text for it says 500 (`Contact.MessageLimitIs800`).

## Model

| member | source | states |
|---|---|---|
| `JsText.Trim` | components/contactForm.tsx:78-82 | `String.prototype.trim`; stated by `JsText.TrimPiece` and `JsText.TrimEnds` (together they fix the result), `JsText.TrimIdempotent`, `JsText.TrimNoWhite` and `JsText.TrimShortens` |
| `JsText.TrimPiece` | components/contactForm.tsx:78-82 | `trim` returns the middle piece of its argument; everything cut off on either side is white |
| `JsText.TrimEnds` | components/contactForm.tsx:78-82 | what `trim` returns neither starts nor ends with a white character |
| `JsText.TrimIdempotent` | components/contactForm.tsx:78-82 | trimming twice gives the same as trimming once |
| `JsText.TrimNoWhite` | components/contactForm.tsx:81 | a string without white characters (such as a valid phone number) is unchanged by `trim` |
| `JsText.TrimShortens` | components/contactForm.tsx:78-82 | `trim` never increases the UTF-16 length |
| `JsText.Utf16Length` | components/contactForm.tsx:44-45 | the length the schema measures lies between the number of characters and twice that |
| `JsText.Utf16LengthBmp` | components/contactForm.tsx:44-45 | that length equals the number of characters exactly when every character is in the Basic Multilingual Plane |
| `JsText.Utf16LengthConcat` | components/contactForm.tsx:44-45 | the length of two strings joined is the sum of their lengths |
| `Contact.NameChecks` | components/contactForm.tsx:42-46 | each of the three name checks (min 2, max 50, letters-and-white pattern) reports its own message exactly when it fails, and no other message appears |
| `Contact.NameAccepted` | components/contactForm.tsx:42-46 | a name passes exactly when it has 2 to 50 characters, each an ASCII letter or a white character |
| `Contact.PhoneAccepted` | components/contactForm.tsx:48 | `^\+?[1-9]\d{1,14}$` accepts exactly an optional '+' followed by 2 to 15 ASCII digits whose first digit is not 0 |
| `Contact.PhoneFromDigits` | components/contactForm.tsx:48 | any 2 to 15 digits not starting with 0 are accepted, both with and without a leading '+' |
| `Contact.MessageChecks` | components/contactForm.tsx:50-53 | the message's min-10 and max-800 checks each report their message exactly when they fail |
| `Contact.MessageAccepted` | components/contactForm.tsx:50-53 | a message passes exactly when its UTF-16 length is 10 to 800 |
| `Contact.MessageLimitIs800` | components/contactForm.tsx:53 | an 800-character message passes; an 801-character one fails, with the text that says 500 |
| `Contact.ValidateAcceptsIff` | components/contactForm.tsx:41-60 | the whole schema passes exactly when name, e-mail, phone and message each follow their rule |
| `Contact.ServicesUnconstrained` | components/contactForm.tsx:49 | the value of `services` never changes the validation result, and no message is ever shown under it |
| `Contact.FieldError` | components/contactForm.tsx:146 | a field shows no message exactly when no failed check concerns it; otherwise it shows the message of one failed check about it |
| `Contact.ValidateFieldErrors` | components/contactForm.tsx:41-53 | the message shown under each field is the first failed check of that field, in the schema's order |
| `Contact.DefaultsRejected` | components/contactForm.tsx:67-73 | the all-empty default form is refused, showing the min-length name message, the phone message and the min-length message text |
| `Contact.SanitizeFieldwise` | components/contactForm.tsx:76-84 | each of the five stored fields is the sanitiser applied to the trimmed same-named input field; each depends only on that field, so none is dropped or swapped; the order is trim first, sanitiser second |
| `Contact.SanitizedValueNotRetrimmed` | components/contactForm.tsx:78 | what the sanitiser returns is sent untrimmed: a sanitiser that turns "<b></b> a" into " a" leaves the leading space in the stored name |
| `Contact.SanitizerInputsOfValidForm` | components/contactForm.tsx:76-84 | for a form that passed validation, the sanitiser gets the phone unchanged, a name of at most 50 and a message of at most 800 code units |
| `Contact.TrimmedNameMayBreakRule` | components/contactForm.tsx:78 | validation happens before trimming: the name " a" passes, but the "a" handed on would fail the name rule |
| `Contact.Validate` | components/contactForm.tsx:41-60 | every failed check of the schema in its order; what it accepts is stated by `Contact.ValidateAcceptsIff`, the checks per field by `Contact.NameChecks` and `Contact.MessageChecks`, what each field shows by `Contact.ValidateFieldErrors` |
| `Contact.SanitizeInput` | components/contactForm.tsx:76-84 | trim and then sanitise each field under its own name; stated by `Contact.SanitizeFieldwise` (every field passes through the sanitiser after `trim`) and `Contact.SanitizedValueNotRetrimmed` |
| `Contact.AfterCreate` | components/contactForm.tsx:95-118 | the submit handler on validated values: exactly one create call with the sanitised values, then on success the reset and the thank-you, on failure the destructive notification with the classified message and nothing else changed; every component of the new state is stated by `Contact.CreateSuccessResets` and `Contact.CreateFailureKeepsForm` |
| `Contact.AfterSubmit` | components/contactForm.tsx:126 | validation and then the submit handler; stated by `Contact.SubmitCreatesOnlyWhenValid` and `Contact.RefusedSubmitShowsErrors` |
| `Contact.HandleServerError` | components/contactForm.tsx:86-93 | one of three messages: the duplicate message exactly for a document-store error of type `document_already_exists`, the database message exactly for any other document-store error, and the unexpected-error message exactly for anything else |
| `Contact.SubmitCreatesOnlyWhenValid` | components/contactForm.tsx:95-118 | a submission appends exactly one create call, with the sanitised values, when validation passes, and none when it fails |
| `Contact.AcceptedSubmitCreates` | components/contactForm.tsx:126 | an accepted submission clears the errors shown and runs the submit handler on the values as they were |
| `Contact.RefusedSubmitShowsErrors` | components/contactForm.tsx:126 | a refused submission changes nothing but the (non-empty) errors shown |
| `Contact.CreateSuccessResets` | components/contactForm.tsx:98-108 | after a successful create call the form holds the empty defaults with no error, the call is recorded with the sanitised values after every earlier call, and the thank-you (not destructive) is added after every earlier notification |
| `Contact.CreateFailureKeepsForm` | components/contactForm.tsx:109-117 | after a create call that throws, the values and errors are untouched, the call is recorded, and a destructive "Submission Error" notification shows `HandleServerError` of the error |
| `Contact.ContactForm.constructor` | components/contactForm.tsx:65-74 | the form opens with the empty defaults, no errors, no calls and no notifications |
| `Contact.ContactForm.Edit` | components/contactForm.tsx:131-149 | typing into the fields changes the values and nothing else |
| `Contact.ContactForm.OnSubmit` | components/contactForm.tsx:95-118 | the submit handler's new state is `AfterCreate` of the old one |
| `Contact.ContactForm.HandleSubmit` | components/contactForm.tsx:126 | the form's submit event gives `AfterSubmit` of the old state: validation, then the submit handler |
| `Contact.ContactForm.ShowIssues` | components/contactForm.tsx:126 | on a refused submission the new state is `AfterSubmit` of the old one, which shows the failed checks and changes nothing else |
| `Contact.ContactForm.SubmitAccepted` | components/contactForm.tsx:126 | on an accepted submission the new state is `AfterSubmit` of the old one: errors cleared, then the submit handler on the values as they were |
| `Contact.SubmitUntouchedForm` | components/contactForm.tsx:67-73 | submitting a freshly opened form makes no create call and shows the min-length name message |
| `Booking.Dates` | app/book/schedule/page.tsx:37-40 | the fourteen date cards; stated by `Booking.DatesWindow` |
| `Booking.DatesWindow` | app/book/schedule/page.tsx:37-40 | there are 14 cards; card i is today + i; they increase; a day has a card exactly when it lies in [today, today + 14) |
| `Booking.TimeLabelsFixed` | app/book/schedule/page.tsx:42-64 | the windows are exactly "9:00am - 12:00pm", "12:30pm - 3:30pm" and "4:00pm - 7:00pm", in that order, distinct and non-empty |
| `Booking.IsSelected` | app/book/schedule/page.tsx:156-158 | the highlight test on day of month and month; stated by `Booking.HighlightIsSelection` |
| `Booking.DateLabel` | app/book/schedule/page.tsx:85-89 | the card label; stated by `Booking.DateLabels`, `Booking.DateLabelsNextDay` and `Booking.WeekdayLabelsRepeatWeekly` |
| `Booking.HighlightIsSelection` | app/book/schedule/page.tsx:156-158 | in any calendar where no month is shorter than 28 days, a card is highlighted exactly when it is the chosen day; with no day chosen, none is |
| `Booking.DateLabels` | app/book/schedule/page.tsx:85-89 | drawn on the opening day, card 0 says "Today", card 1 "Tomorrow", and every later card its weekday abbreviation |
| `Booking.DateLabelsNextDay` | app/book/schedule/page.tsx:85-89 | drawn a day later, the labels shift: card 0 shows its weekday, card 1 "Today", card 2 "Tomorrow" |
| `Booking.WeekdayLabelsRepeatWeekly` | app/book/schedule/page.tsx:88 | among the cards from the third on, two share a label exactly when they are seven days apart |
| `Booking.DateSelected` | app/book/schedule/page.tsx:66-69 | the date handler on the page state; stated by `Booking.DateSelectClearsTime` |
| `Booking.TimeSelected` | app/book/schedule/page.tsx:71-73 | the time handler on the page state; stated by `Booking.TimeSelectKeepsDate` |
| `Booking.Submitted` | app/book/schedule/page.tsx:75-83 | the continue handler on the page state; stated by `Booking.SubmitExactlyWhenEnabled` |
| `Booking.Step` | app/book/schedule/page.tsx:163-313 | one click on a card (line 163), a time slot (line 238) or continue (line 313); stated by `Booking.StepKeepsConsistent` |
| `Booking.Run` | app/book/schedule/page.tsx:66-83 | a sequence of clicks, skipping those the page does not offer; stated by `Booking.RunKeepsConsistent` and `Booking.ReachableStates` |
| `Booking.DateSelectClearsTime` | app/book/schedule/page.tsx:66-69 | picking a date sets it and clears the time, whatever was chosen before, and leaves the store and router alone; continue is then disabled |
| `Booking.TimeSelectKeepsDate` | app/book/schedule/page.tsx:71-73 | picking a time sets it and leaves the date, the store and the router unchanged |
| `Booking.SubmitExactlyWhenEnabled` | app/book/schedule/page.tsx:75-83 | continuing records `{date, time}` and pushes the confirmation route exactly when the button is enabled, and otherwise changes nothing; the button is drawn active exactly when it is enabled (lines 314 and 316) |
| `Booking.StepKeepsConsistent` | app/book/schedule/page.tsx:208-238 | every click the page offers keeps the state consistent |
| `Booking.RunKeepsConsistent` | app/book/schedule/page.tsx:66-83 | every sequence of clicks keeps the state consistent |
| `Booking.ReachableStates` | app/book/schedule/page.tsx:33-34 | in every state reachable from the opened page, a time is set only if a date is set, and continue is disabled exactly when the date or the time is missing |
| `Booking.TimeHandlerNeedsThePanelGate` | app/book/schedule/page.tsx:208 | the time slots are not offered before a date is chosen, and the time handler alone would leave a time without a date |
| `Booking.SchedulePage.constructor` | app/book/schedule/page.tsx:30-34 | the page opens with nothing chosen, nothing pushed, and the store as it was |
| `Booking.SchedulePage.HandleDateSelect` | app/book/schedule/page.tsx:66-69 | the new state is `DateSelected` of the old one |
| `Booking.SchedulePage.HandleTimeSelect` | app/book/schedule/page.tsx:71-73 | the new state is `TimeSelected` of the old one |
| `Booking.SchedulePage.HandleSubmit` | app/book/schedule/page.tsx:75-83 | the new state is `Submitted` of the old one |
| `Booking.SchedulePage.Click` | app/book/schedule/page.tsx:163 | an offered click runs its handler (card 163, slot 238, continue 313) and keeps a consistent state consistent |

## Left out

- Rendering, styling, animation wrappers, icons and the notification widget are not modelled; notifications are recorded as values only.
- The e-mail check of the schema library is the parameter `emailOk`. Its pattern is not modelled.
- The HTML sanitiser is the parameter `purify`. Its output is not modelled, so no property about markup removal is stated.
- The create call is represented only by its argument and its outcome. The network, the generated document id, the database and collection configuration, the awaiting and the `isSubmitting` button state are not modelled. The error logging to the console is not modelled either.
- `Contact.ContactForm.Edit` does not re-validate: the form library checks the fields again on every change once the form has been submitted, whatever the outcome of that submission (refused, created and reset, or created with an error), and the model keeps the errors shown until the next submission instead.
- The date library's calendar arithmetic and the real clock are not modelled. Day of month and month are parameters, and `today` and `now` are parameters. Times of day and daylight-saving shifts are not modelled.
- The booking store is represented by the one arrival window it records. Its internals are not part of this model.
- The back button (`router.back()`) and leaving the page are not modelled.
- JavaScript strings can hold unpaired surrogates. Dafny strings cannot, so such input is outside the model.
- Landing page, hero section, navigation bar, site configuration and the server-side form action are not part of this model.
