# traffic-guard-local: the browser-side record model, in Dafny

traffic-guard-local is a single-page application for a road-safety
authority. Administrators record traffic offences. Vehicle owners look up
their offences and pay their fines. Everything lives in the browser. This
project models the logic behind its screens and proves properties of it:

- `Offences` (`offences.dfy`) is the offence repository. It holds the
  `Offence` record, the three seed records and the identifier rule
  `"OFF" + String(n).padStart(3, "0")`. It defines add, update by shallow
  merge, delete by identifier, the case-insensitive lookup by vehicle number
  and `payFine` as pure sequence functions. The class `OffenceStore` holds
  the list and the `frsc_offences` storage slot, and its methods replace
  both on every change.
- `Auth` (`auth.dfy`) is the session. It has the hardcoded admin login, the
  vehicle-owner login (any input whose `trim()` is non-empty, stored
  untrimmed) and logout. The class `Session` holds the `user` field and the
  `frsc_user` slot.
- `Payment` (`payment.dfy`) is the payment dialog:
  - the four-step, short-circuiting `validateForm`;
  - `formatCardNumber`;
  - the expiry and CVV input normalisers;
  - the dialog state that `handleSubmit` and `handleClose` update, in the
    class `PaymentForm`.
- `AdminDashboard` (`admin_dashboard.dfy`) derives figures from the list:
  - the free-text search;
  - the total, paid and pending sums;
  - the most common offence type, built from a count map in insertion order
    and a stable descending sort;
  - the repeat offenders;
  - the unpaid count.
- `UserDashboard` (`user_dashboard.dfy`) is the vehicle owner's view: their
  records, the status filter, the three amounts and the choice of
  empty-state message.
- `Seqs`, `Text` and `Optional` are support modules. They model the
  JavaScript primitives the code relies on, in the language's own terms:
  - `Array.prototype.filter` and counting;
  - the `\s` and `\d` classes;
  - `trim`, `toLowerCase` and `includes`;
  - `padStart` and `String(n)`.

In a few places the code does something other than what the system is
meant to do; there the model follows the code:

- `addOffence` keeps the `paymentStatus` its caller passes. It does not
  force `Pending`.
- `payFine` stores no transaction id or gateway reference on the record.
- An admin update may set a Paid record back to Pending.
- A stored empty list is loaded as is and not reseeded. The startup check
  tests whether the slot is present, not whether the list is empty.
- Identifiers count records, not additions. After a delete, the next add can
  repeat an existing identifier (`Offences.DeleteThenAddReusesId`). This is
  the code's behaviour and is modelled as such.
- The card-number check counts the characters that are not whitespace. It
  does not check that they are digits. The CVV check is a length check.

## Model

| member | source | states |
|---|---|---|
| Offences.OffenceIdShape | src/contexts/OffenceContext.tsx:82 | the id is "OFF" followed by decimal digits that read back as `n`; the field is padded to at least 3 digits and never truncated, so its length is 3 + max(3, digits of n) |
| Offences.OffenceId | src/contexts/OffenceContext.tsx:82 | the id starts with "OFF" and is at least six characters long |
| Offences.OffenceIdInjective | src/contexts/OffenceContext.tsx:82 | different positions give different identifiers |
| Offences.IdNumberValue | src/contexts/OffenceContext.tsx:82 | the padded number is all digits, reads back as `n`, and is max(3, digits of n) long |
| Offences.OneDigitOffenceId | src/contexts/OffenceContext.tsx:82 | positions 1 to 9 give "OFF00" followed by the digit |
| Offences.FirstOffenceId | src/contexts/OffenceContext.tsx:82 | position 1 gives "OFF001" |
| Offences.SecondOffenceId | src/contexts/OffenceContext.tsx:82 | position 2 gives "OFF002" |
| Offences.ThirdOffenceId | src/contexts/OffenceContext.tsx:82 | position 3 gives "OFF003" |
| Offences.FourDigitOffenceId | src/contexts/OffenceContext.tsx:82 | position 1000 gives "OFF1000": the number is padded, never truncated |
| Offences.AddRecord | src/contexts/OffenceContext.tsx:79-85 | exactly one record is appended at the end; every earlier record stays in place; the new record carries every supplied field and the id of position len+1 |
| Offences.SeedSequential | src/contexts/OffenceContext.tsx:28-59 | the seed records carry the ids of their positions, OFF001 to OFF003 |
| Offences.SeedData | src/contexts/OffenceContext.tsx:28-59 | three seed records with positive fines, no two sharing an id or a plate |
| Offences.AddKeepsSequentialIds | src/contexts/OffenceContext.tsx:79-85 | adding to a list numbered by position keeps it numbered by position |
| Offences.SequentialIdsUnique | src/contexts/OffenceContext.tsx:82 | in a list numbered by position no two records share an id, so the ids are unique while only adds happen |
| Offences.DeleteThenAddReusesId | src/contexts/OffenceContext.tsx:79-101 | from the seed, deleting OFF001 and then adding gives a list of three records in which two carry OFF003 |
| Offences.MergeIdempotent | src/contexts/OffenceContext.tsx:91 | merging the same partial update twice equals merging it once |
| Offences.Merge | src/contexts/OffenceContext.tsx:91 | `{...off, ...updates}`: every field the update carries has the update's value, every field it does not carry keeps the record's, and an empty update changes nothing |
| Offences.UpdateRecords | src/contexts/OffenceContext.tsx:89-92 | length and order are kept; each record with the target id is merged with the update (present fields replaced, the rest kept); every other record is unchanged |
| Offences.UpdateAbsentId | src/contexts/OffenceContext.tsx:89-92 | an id no record carries leaves the list unchanged |
| Offences.UpdateIdempotent | src/contexts/OffenceContext.tsx:89-92 | applying the same update twice equals applying it once, even when the update renames the records it touches |
| Offences.DeleteRecords | src/contexts/OffenceContext.tsx:97-99 | the records with a different id are kept in order; no record with the id remains; the length drops by the number of records that had the id |
| Offences.DeleteAbsentId | src/contexts/OffenceContext.tsx:97-99 | deleting an unknown id leaves the list unchanged |
| Offences.FilterByVehicle | src/contexts/OffenceContext.tsx:103-107 | the records whose lower-cased plate equals the lower-cased argument, as a subsequence in list order, as many as there are matching records, so every copy of a matching record is kept (these facts determine the result, by Seqs.FilterUnique) |
| Offences.VehicleLookupIgnoresCase | src/contexts/OffenceContext.tsx:105 | two arguments that lower-case alike give the same result |
| Offences.MixedCaseLookup | src/contexts/OffenceContext.tsx:104-106 | two vehicle numbers that differ only in the case of ASCII letters find the same records |
| Offences.LagosPlateAnyCase | src/contexts/OffenceContext.tsx:104-106 | "lag-123-ab" finds the same records as "LAG-123-AB" |
| Offences.PayFineRecords | src/contexts/OffenceContext.tsx:109-110 | every record with the id becomes Paid; no other field and no other record changes; the length is kept |
| Offences.PayFineIdempotent | src/contexts/OffenceContext.tsx:109-110 | paying twice equals paying once |
| Offences.OffenceStore.constructor | src/contexts/OffenceContext.tsx:62 | the list starts empty and the slot holds what an earlier session stored |
| Offences.OffenceStore.Load | src/contexts/OffenceContext.tsx:64-72 | stored data, an empty list included, is loaded as is; an empty slot puts the seed records in both the state and the slot; afterwards the slot holds the list |
| Offences.OffenceStore.Save | src/contexts/OffenceContext.tsx:74-77 | the slot and the state both become the new list |
| Offences.OffenceStore.AddOffence | src/contexts/OffenceContext.tsx:79-87 | the new list is AddRecord of the old one, and the slot holds it |
| Offences.OffenceStore.UpdateOffence | src/contexts/OffenceContext.tsx:89-95 | the new list is UpdateRecords of the old one, and the slot holds it |
| Offences.OffenceStore.DeleteOffence | src/contexts/OffenceContext.tsx:97-101 | the new list is DeleteRecords of the old one, and the slot holds it |
| Offences.OffenceStore.GetOffencesByVehicle | src/contexts/OffenceContext.tsx:103-107 | returns FilterByVehicle of the current list and changes nothing |
| Offences.OffenceStore.PayFine | src/contexts/OffenceContext.tsx:109-112 | the new list is PayFineRecords of the old one, and the slot holds it |
| Auth.AdminLogin | src/contexts/AuthContext.tsx:28-35 | succeeds iff the role is admin, the email is admin@frsc.gov.ng and the password is 12345; the only identity it can produce is that admin |
| Auth.VehicleLogin | src/contexts/AuthContext.tsx:38-45 | succeeds iff the input holds a character that is not whitespace; the identity stores the input untrimmed with the user role |
| Auth.Session.constructor | src/contexts/AuthContext.tsx:19 | nobody is logged in, and the slot holds what an earlier session stored |
| Auth.Session.Restore | src/contexts/AuthContext.tsx:21-26 | a stored identity is restored; an empty slot changes nothing; started from the initial state, the state then mirrors the slot |
| Auth.Session.IsAuthenticated | src/contexts/AuthContext.tsx:60 | signed in exactly when a user is held; Restore sets it exactly when the slot holds an identity or a user was already held, Login and LoginUser set it on success and Logout clears it |
| Auth.Session.Login | src/contexts/AuthContext.tsx:28-36 | returns true iff the admin credentials match; on success the identity is set and mirrored in the slot; on failure neither the identity nor the slot changes |
| Auth.Session.LoginUser | src/contexts/AuthContext.tsx:38-46 | returns true iff the input is not all whitespace; on success the untrimmed input is the identity, mirrored in the slot, so the user is authenticated; on failure nothing changes |
| Auth.Session.Logout | src/contexts/AuthContext.tsx:48-51 | the identity and the slot are both cleared whatever the state was, so the user is no longer authenticated and a second logout changes nothing |
| Text.TrimStart | src/contexts/AuthContext.tsx:39 | the result is a suffix of the input, what was cut off is all whitespace, and the result does not start with whitespace |
| Text.TrimEnd | src/contexts/AuthContext.tsx:39 | the result is a prefix of the input, what was cut off is all whitespace, and the result does not end with whitespace |
| Text.IsWhitespace | src/components/PaymentModal.tsx:36 | the `\s` class and the set `trim` removes: the WhiteSpace and LineTerminator characters of ECMAScript (tab to carriage return, space, no-break space, U+1680, U+2000 to U+200A, the line and paragraph separators, U+202F, U+205F, U+3000 and the byte order mark) |
| Text.WhitespaceClass | src/components/PaymentModal.tsx:36 | space, tab, newline, carriage return, no-break space and the byte order mark are in the class; digits, ASCII letters and the zero-width space U+200B are not |
| Text.Trim | src/contexts/AuthContext.tsx:39 | `trim()` gives the slice of the input that starts after the leading whitespace, with only whitespace cut off on either side, and neither starts nor ends with whitespace |
| Text.TrimEmptyIff | src/components/PaymentModal.tsx:32 | `trim()` yields the empty string exactly when every character is whitespace |
| Text.LowerIdempotent | src/contexts/OffenceContext.tsx:105 | lower-casing twice equals lower-casing once |
| Text.Lower | src/contexts/OffenceContext.tsx:105 | `toLowerCase` keeps the length |
| Text.LowerShape | src/contexts/OffenceContext.tsx:105 | no ASCII capital is left after lower-casing, every ASCII capital becomes its own lower-case letter (code point + 32), and every other character is kept as it was |
| Text.LowerUpToCase | src/contexts/OffenceContext.tsx:105 | two strings that differ only in the case of ASCII letters lower-case to the same string |
| Text.ContainsIff | src/pages/AdminDashboard.tsx:26-28 | `includes` holds exactly when the needle equals the slice of the haystack at some position |
| Text.Contains | src/pages/AdminDashboard.tsx:26-28 | every string includes the empty string, so an empty search term matches |
| Text.StripWhitespace | src/components/PaymentModal.tsx:86 | `replace(/\s/g, "")` leaves no whitespace, keeps every other character in order (a subsequence as long as the non-whitespace count), and leaves a string without whitespace unchanged |
| Text.DigitsOnly | src/components/PaymentModal.tsx:164 | `replace(/\D/g, "")` leaves only digits, keeps every digit in order (a subsequence as long as the digit count), and leaves a digit string unchanged |
| Text.PadStart | src/contexts/OffenceContext.tsx:82 | the result is as long as the width or the input, whichever is greater; it ends with the input and begins with pad characters only |
| Text.NatToString | src/contexts/OffenceContext.tsx:82 | `String(n)` is a non-empty string of decimal digits with no leading zero, except "0" itself for zero |
| Text.DecimalValueOfNatToString | src/contexts/OffenceContext.tsx:82 | reading back the digits `String(n)` writes gives n |
| Text.DecimalValueLeadingZeros | src/contexts/OffenceContext.tsx:82 | zero padding does not change the value a digit string denotes |
| Seqs.Filter | src/contexts/OffenceContext.tsx:98 | `Array.prototype.filter`: the result is a subsequence of the input; it holds exactly the elements that pass; its length is the number that pass |
| Seqs.FilterUnique | src/contexts/OffenceContext.tsx:104-106 | a sequence that is a subsequence of the input, whose elements all pass, and that is as long as the number that pass, is the filter: no copy can be dropped or added |
| Seqs.SubseqCountBound | src/contexts/OffenceContext.tsx:104-106 | a subsequence whose elements all pass is no longer than the number of passing elements |
| Payment.ValidateForm | src/components/PaymentModal.tsx:31-49 | valid iff the name has a non-whitespace character, the card has exactly 16 non-whitespace characters, the expiry is dd/dd and the CVV has 3 characters; otherwise the error is the first failing check in the order name, card, expiry, CVV |
| Payment.ErrorMessage | src/components/PaymentModal.tsx:33-45 | the toast for each failed check: "Please enter cardholder name", "Card number must be 16 digits", "Expiry date must be in MM/YY format", "CVV must be 3 digits" |
| Payment.ErrorMessagesDistinct | src/components/PaymentModal.tsx:33-45 | different failed checks show different messages |
| Payment.ExpiryFormat | src/components/PaymentModal.tsx:40 | the pattern `^\d{2}\/\d{2}$`: exactly two digits, a slash and two digits, with no range check on the month |
| Payment.GroupedCardAccepted | src/components/PaymentModal.tsx:36-40 | "4111 1111 1111 1111" with expiry "13/25" passes: spaces do not count and the month is not range-checked |
| Payment.ShortCardRejected | src/components/PaymentModal.tsx:36 | a 12-digit card number fails with the card-number message |
| Payment.ShortCvvRejected | src/components/PaymentModal.tsx:44 | a two-character CVV fails once the other fields pass |
| Payment.BlankNameRejected | src/components/PaymentModal.tsx:32 | a name made of blanks fails first, whatever the other fields hold |
| Payment.FieldExamples | src/components/PaymentModal.tsx:32-40 | " \t" is blank, and "13/25" and "12/25" match the expiry pattern |
| Payment.GroupShape | src/components/PaymentModal.tsx:87-88 | in the grouped string, position i is a space exactly when i % 5 == 4 and otherwise holds input character i - i/5 |
| Payment.Group | src/components/PaymentModal.tsx:87-88 | the grouped string of n characters is n + (n-1)/4 long (0 for none): one space between each two groups of four, none at the end |
| Payment.GroupStripsBack | src/components/PaymentModal.tsx:87-88 | removing the whitespace from the grouped string gives back its whitespace-free input |
| Payment.FormatCardNumber | src/components/PaymentModal.tsx:85-89 | with whitespace removed the result equals the input with whitespace removed; spaces stand exactly at positions 4, 9, 14, and so on, and every other position holds a character that is not whitespace; for n non-whitespace characters the length is n + (n-1)/4 (0 for none), so there is no trailing space and 16 give 19 |
| Payment.FormatCardNumberIdempotent | src/components/PaymentModal.tsx:150 | formatting a formatted card number changes nothing, so the field is stable under its own onChange |
| Payment.FormatKeepsCardCheck | src/components/PaymentModal.tsx:85-89 | formatting keeps the card check's count of characters that are not whitespace |
| Payment.ExpiryLayoutShape | src/components/PaymentModal.tsx:165-167 | the layout of a digit string is at most 5 characters, with a slash at position 2 and digits elsewhere; with 2 or more digits it is min(digits, 4) + 1 long and the slash is there; 4 digits give the dd/dd form |
| Payment.ExpiryLayout | src/components/PaymentModal.tsx:165-167 | fewer than 2 characters come back as they are; with 2 or more the result is min(length, 4) + 1 long, holds the slash at position 2, and without it is the first four characters in order |
| Payment.NormalizeExpiry | src/components/PaymentModal.tsx:163-169 | the result has at most 5 characters, a slash at position 2 and digits elsewhere; its digits are the input's first four digits in order; fewer than 2 digits come back as the digits alone, and with 2 or more the slash is present and the length is min(digits, 4) + 1, so two digits give the digits and a trailing slash; 4 or more input digits make it match the expiry pattern |
| Payment.NormalizedExpiryMatches | src/components/PaymentModal.tsx:163-169 | the normalised expiry passes the pattern check exactly when the input holds at least four digits |
| Payment.ExpiryFormatKept | src/components/PaymentModal.tsx:163-169 | an expiry that passes the pattern check is left unchanged by the normaliser |
| Payment.NormalizeExpiryIdempotent | src/components/PaymentModal.tsx:163-169 | normalising a normalised expiry changes nothing |
| Payment.NormalizeCvv | src/components/PaymentModal.tsx:181 | the result is all digits, a subsequence of the input, as long as the input's digit count, and an all-digit input comes back unchanged |
| Payment.PaymentForm.constructor | src/components/PaymentModal.tsx:19-29 | every input is empty, nothing is processing, no receipt, no transaction |
| Payment.PaymentForm.SetCardholderName | src/components/PaymentModal.tsx:138 | only the name changes |
| Payment.PaymentForm.SetCardNumber | src/components/PaymentModal.tsx:150 | the card number becomes the formatted input; nothing else changes |
| Payment.PaymentForm.SetExpiryDate | src/components/PaymentModal.tsx:163-169 | the expiry becomes the normalised input; nothing else changes |
| Payment.PaymentForm.SetCvv | src/components/PaymentModal.tsx:181 | the CVV becomes the digits of the input; nothing else changes |
| Payment.PaymentForm.Submit | src/components/PaymentModal.tsx:51-56 | the result is the validation verdict; processing is set only when it passes; no other field changes |
| Payment.PaymentForm.CompletePayment | src/components/PaymentModal.tsx:66-70 | the transaction is recorded, processing ends, the receipt is shown, the caller gets the transaction id and gateway reference, and the inputs are unchanged |
| Payment.PaymentForm.Close | src/components/PaymentModal.tsx:74-82 | every input becomes empty; processing and the receipt are off; there is no transaction |
| AdminDashboard.FilteredOffences | src/pages/AdminDashboard.tsx:24-29 | the records whose lower-cased plate, id or name contains the lower-cased term, as a subsequence in list order, as many as there are matching records, so every copy is kept; an empty term keeps every record |
| AdminDashboard.MatchesSearch | src/pages/AdminDashboard.tsx:26-28 | an empty search term matches every record |
| AdminDashboard.SeedSearchLag | src/pages/AdminDashboard.tsx:24-29 | searching the seed records for "LAG" gives OFF001 and OFF003, in that order |
| AdminDashboard.SumFinesSplit | src/pages/AdminDashboard.tsx:31-34 | the sum over a list is the sum over the records a test keeps plus the sum over those its complement keeps |
| AdminDashboard.SumFinesNonNegative | src/pages/AdminDashboard.tsx:31 | non-negative fines have a non-negative sum |
| AdminDashboard.SumFines | src/pages/AdminDashboard.tsx:31 | the `reduce` from the left: the empty list sums to 0, and any other list to the sum over all but its last record plus the last fine |
| AdminDashboard.Totals | src/pages/AdminDashboard.tsx:31-35 | total is the sum of all fines and paid the sum over Paid records; pending, computed as total minus paid, is the sum over Pending records; with non-negative fines both lie between 0 and the total |
| AdminDashboard.UnpaidCount | src/pages/AdminDashboard.tsx:109 | the number of Pending records, at most the list length, and with the Paid records it makes up the list |
| AdminDashboard.BumpShape | src/pages/AdminDashboard.tsx:37-40 | a present key's count goes up by one in place; a new key is appended with count 1 |
| AdminDashboard.Bump | src/pages/AdminDashboard.tsx:38 | the count a key had (0 when it had none) plus one: an entry is added only for a key not yet present: the map keeps its length for a present key and grows by one for a new one |
| AdminDashboard.TallyStep | src/pages/AdminDashboard.tsx:37-40 | bumping a count map of a list by one more key gives the count map of the longer list |
| AdminDashboard.TallyOf | src/pages/AdminDashboard.tsx:37-50 | the fold yields each key once with its number of occurrences, every key present, in first-occurrence order |
| AdminDashboard.FirstMax | src/pages/AdminDashboard.tsx:42-44 | the index of the entry with the greatest count; every entry before it has a strictly smaller count, which is the head of a stable descending sort |
| AdminDashboard.ModeUnique | src/pages/AdminDashboard.tsx:42-44 | at most one key is maximal with every earlier-seen key strictly less frequent, so the tie-break picks a single winner |
| AdminDashboard.FirstMaxIsMode | src/pages/AdminDashboard.tsx:37-44 | the first maximal entry of the count map is the most frequent key, ties going to the key seen first |
| AdminDashboard.Mode | src/pages/AdminDashboard.tsx:37-44 | the result is the most frequent key, ties going to the key seen first |
| AdminDashboard.MostCommonOffence | src/pages/AdminDashboard.tsx:37-44 | "None" for an empty list; otherwise the most frequent type, ties going to the type recorded first, and "None" again when that type is the empty string |
| AdminDashboard.RepeatsInOrder | src/pages/AdminDashboard.tsx:46-53 | the keys of the entries with count above 1 occur more than once, include every repeated key, and come in first-occurrence order |
| AdminDashboard.RepeatOffenders | src/pages/AdminDashboard.tsx:46-53 | every plate listed occurs more than once, every plate that occurs more than once is listed, and the plates are distinct and in first-occurrence order; plates are compared exactly, case included |
| UserDashboard.UserOffences | src/pages/UserDashboard.tsx:17-18 | the records whose plate matches the logged-in vehicle number case-insensitively, as a subsequence in list order and as many as match, so every copy is kept; without a user, only records with an empty plate |
| UserDashboard.OwnerLookupIsLogin | src/pages/UserDashboard.tsx:17-18 | after an accepted vehicle-owner login the dashboard looks up exactly the typed input, untrimmed; an input the login rejects gives no user, and then only empty plates match |
| UserDashboard.PaddedLoginMissesPlate | src/contexts/AuthContext.tsx:38-42 | since the login stores its input untrimmed, an owner whose input starts with a blank finds no record whose plate is empty or starts with a character that is not whitespace |
| UserDashboard.FilteredOffences | src/pages/UserDashboard.tsx:20-23 | "all" returns the vehicle's records unchanged; a status gives the records with that status, as a subsequence in order and as many as have it |
| UserDashboard.StatusFiltersPartition | src/pages/UserDashboard.tsx:20-23 | the Paid and the Pending views cover every record, and their lengths add up to the record count |
| UserDashboard.StatusFilterIdempotent | src/pages/UserDashboard.tsx:20-23 | applying the same status filter twice equals applying it once |
| UserDashboard.Amounts | src/pages/UserDashboard.tsx:30-34 | total is the sum of the vehicle's fines and paid the sum over its Paid records; pending, computed as total minus paid, is the sum over its Pending records; with non-negative fines both lie between 0 and the total |
| UserDashboard.EmptyStateMessage | src/pages/UserDashboard.tsx:111-117 | "No offences found for this vehicle number" iff the vehicle has no records; "No offences match your filter" iff it has records but the view is empty; the list is shown iff the view is non-empty |
| UserDashboard.AllNeverUnmatched | src/pages/UserDashboard.tsx:111-117 | under the "all" filter the no-match message never appears |
| UserDashboard.SeedOwnerView | src/pages/UserDashboard.tsx:17-23 | on the seed records, the owner of NAS-456-CD (in any casing) sees only OFF002, which is Paid, so the Pending view shows the no-match message |

## Left out

- Rendering and presentation: JSX, dialogs, toasts, navigation, `toLocaleString` and date formatting carry no logic the model needs.
- `localStorage` and JSON serialisation: each storage slot holds the list or the identity directly. A corrupt or hand-edited slot, and a slot holding the text `null`, are not modelled.
- React state semantics: batching of `setState` calls and stale closures are not modelled. Each method updates the fields at once, in the order the code names them.
- `useOffences` and `useAuth` throwing outside their providers is framework wiring.
- Randomness, the clock and the 2500 ms delay in `handleSubmit`: the transaction id, gateway reference and payment date are a parameter of `Payment.PaymentForm.CompletePayment`. The asynchronous gap between `Submit` and `CompletePayment` is not modelled, and neither is a close during it.
- The browser's `maxLength` limits (19, 5 and 3) and the `disabled` attribute on the inputs do not appear in the code's own logic. The normalisers are modelled on whatever value arrives.
- The admin offence form and edit dialog (`parseFloat` of the fine) are outside the core: `fineAmount` is an integer, and those screens appear only as inputs to add and update.
- Offences.UpdateRecords: a `Partial` update that carries a key explicitly set to `undefined` would overwrite the field with `undefined`; the model's optional fields are either present with a value or absent.
- Text.Lower: `toLowerCase` is modelled on the ASCII letters only; the full Unicode case mapping is not modelled.
- Text: a Dafny string is a sequence of Unicode scalar values, while a JavaScript string is a sequence of UTF-16 code units. A character outside the Basic Multilingual Plane (an emoji, say) is one character in the model and two code units in the browser, and a lone surrogate code unit cannot be represented at all. The whitespace set and the digit class lie inside the Basic Multilingual Plane, so they are unaffected.
- Payment.ValidateForm: the length checks count characters, not code units, so they differ from the browser's on input holding characters outside the Basic Multilingual Plane: 14 digits and one emoji make 16 code units and pass the browser's 16-character card check, but they are 15 characters here and fail; the same goes for the CVV length. `padStart` in the identifiers is applied to digits only, so it is unaffected.
- Payment.FormatCardNumber: regular-expression `.` in `formatCardNumber` does not match line terminators, which the card field cannot contain after whitespace removal, so this makes no difference there; a character outside the Basic Multilingual Plane is one unit of a group here but two in the browser, where `.` without the `u` flag matches a single code unit, so the grouping of such input differs.
- AdminDashboard.TallyOf: `Object.entries` lists integer-like keys (such as a plate typed as "123") first, in numeric order, before the other keys in insertion order; the model uses insertion order for every key.
- AdminDashboard.TallyOf: keys that collide with `Object.prototype` properties (such as "constructor" or "__proto__") behave differently in a plain object; the model treats every key as an ordinary string.
- AdminDashboard.FirstMax: only the head of the sorted entries is used by the code, so only the head of a stable descending sort is modelled, not the sort itself.
- Login.tsx upper-cases the typed vehicle number before calling `loginUser`; that screen is not part of this model, so `Auth.VehicleLogin` takes the value as given.
