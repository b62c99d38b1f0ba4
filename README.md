# Contact-form submission pipeline, modelled in Dafny

This project models the one piece of logic in a personal portfolio site: the contact
form of `src/pages/Contact.jsx`. The form holds a draft with four fields (name,
contact, subject, message). On submit it runs three gates in order:

1. every field is non-empty;
2. the contact is email-shaped, or JavaScript's `isNaN` is false for it (the
   "phone number" fallback);
3. the EmailJS service id, template id and public key are all set.

When all three pass, the page shows "Sending..." and calls `emailjs.send` with the
draft under the template's variable names. Success resets the draft. Failure shows a
reason built from the error's text, message and status. The model also covers the
keystroke handler and the `publicUrl` asset-path helper.

Modules, one per concern:

- `Wrappers` (`wrappers.dfy`): the `Option` type. An absent value stands for JavaScript's `undefined`.
- `JsText` (`js_text.dfy`): the whitespace set shared by `\s` and numeric coercion.
  It also holds decimal rendering of integers (`${n}`), its inverse `ParseDecimal`,
  and the round trip between them.
- `EmailShape` (`email_shape.dfy`): the pattern `/^[^@\s]+@[^@\s]+\.[^@\s]+$/`.
  `MatchesPattern` states it as a split of the string into the pattern's pieces.
  `IsEmailShape` tests it directly: one `@`, no whitespace, a non-empty local part,
  and a `.` with a character on each side after the `@`. `EmailShapeMeaning` proves
  the two agree.
- `JsNumber` (`js_number.dfy`): `isNaN` applied to a string. `ToNumber` gives NaN
  exactly when the string is not a StringNumericLiteral (section 7.1.4.1.1 of
  ECMA-262). So the model recognises that grammar exactly: surrounding whitespace,
  sign, `Infinity`, fractions, exponents, and `0x`/`0o`/`0b` literals. It computes no
  floating-point value.
- `ContactForm` (`contact_form.dfy`): the pipeline as pure functions over the displayed
  state `UiState(form, status, errorDetail)`:
  - `Gate` runs the three checks;
  - `Submit`, `Delivered`, `DeliveryFailed` and `Change` are the steps;
  - `Attempt` is one whole submission;
  - the lemmas state what the steps promise.
- `ContactPage` (`contact_page.dfy`): the component as a class. The fields `form`,
  `status` and `errorDetail` are updated in place by `HandleChange`, `HandleSubmit`
  (with its early returns), `OnSent` and `OnSendFailed`. Each method is proved to
  move the state exactly as the matching `ContactForm` step does.
- `PublicUrl` (`public_url.dfy`): `publicUrl`, which removes the leading slashes and
  prefixes the base URL.

Behaviour of the code worth knowing:

- The contact check accepts every string that JavaScript's numeric coercion accepts.
  That includes hexadecimal literals, `Infinity`, exponents and a whitespace-only
  contact (`Number("  ")` is 0). `NumericContactsAccepted` proves that a blank
  contact passes.
- A refusal at the first two gates leaves `errorDetail` as it was, because the code
  never clears it on those paths.

## Model

| member | source | states |
|---|---|---|
| JsText.DecimalRoundTrip | src/pages/Contact.jsx:81 | reading back the rendering `${n}` of any integer status gives that integer |
| JsText.DecimalStringInjective | src/pages/Contact.jsx:81 | two statuses that render the same are equal, so the shown number identifies the status |
| JsText.DecimalString | src/pages/Contact.jsx:81 | `${n}` of an integer: digits for a non-negative one, a minus sign then digits for a negative one, never a leading zero except for `0` itself |
| EmailShape.EmailShapeMeaning | src/pages/Contact.jsx:40-41 | the direct test (one `@`, no whitespace, non-empty local part, a `.` with a character on each side after the `@`) holds exactly when the string splits as run `@` run `.` run of `[^@\s]` characters |
| EmailShape.IsEmailShape | src/pages/Contact.jsx:40-41 | `emailPattern.test(contact)` decided directly: the first `@` exists, the part before it is a non-empty run of `[^@\s]`, the part after it is such a run with a `.` strictly inside |
| EmailShape.MatchesPattern | src/pages/Contact.jsx:40 | the anchored pattern's meaning: some `@` and later `.` split the whole string into three non-empty `[^@\s]` runs |
| EmailShape.ExampleAddressAccepted | src/pages/Contact.jsx:40-41 | a complete draft's typical address `alex@example.com` is email-shaped |
| EmailShape.NoAtRejected | src/pages/Contact.jsx:40-41 | every string without `@` is not email-shaped |
| EmailShape.SecondAtRejected | src/pages/Contact.jsx:40-41 | every string with two `@` is refused |
| EmailShape.WhitespaceRejected | src/pages/Contact.jsx:40-41 | every string with a whitespace character anywhere is refused |
| EmailShape.EmptyDomainPieceRejected | src/pages/Contact.jsx:40-41 | a string whose part after an `@` has no `.` other than as its first or last character is refused |
| EmailShape.EmptyLocalPartRejected | src/pages/Contact.jsx:40-41 | every string starting with `@` is refused |
| JsNumber.TrimSplit | src/pages/Contact.jsx:42 | the literal part that numeric coercion reads is a slice with whitespace-only ends around it, starting and ending in a non-whitespace character |
| JsNumber.TrimBetween | src/pages/Contact.jsx:42 | that literal part is unique: any such slice is the one trimming gives |
| JsNumber.PaddingIgnored | src/pages/Contact.jsx:42 | whitespace around a contact changes neither the trimmed literal nor whether `isNaN` holds |
| JsNumber.BlankIsNumeric | src/pages/Contact.jsx:42 | a whitespace-only string is not NaN |
| JsNumber.DigitStringIsNumeric | src/pages/Contact.jsx:42 | a non-empty digit string, also after `+` or `-`, is not NaN |
| JsNumber.NumericStringChars | src/pages/Contact.jsx:42 | a string that is not NaN consists of whitespace and numeric-literal characters only |
| JsNumber.ForeignCharIsNaN | src/pages/Contact.jsx:42 | a string with a character that is neither whitespace nor a numeric-literal character (such as `@`) is NaN |
| JsNumber.FractionIsNumeric | src/pages/Contact.jsx:42 | `3.14` is not NaN |
| JsNumber.WordIsNaN | src/pages/Contact.jsx:42 | `abc` is NaN although each letter is a hex digit |
| JsNumber.SeparatedDigitsAreNaN | src/pages/Contact.jsx:42 | `98-76` is NaN |
| JsNumber.IsNaN | src/pages/Contact.jsx:42 | `isNaN(contact)`: holds exactly when the string without its surrounding whitespace is neither empty, nor a decimal literal (sign, digits with fraction and exponent, or `Infinity`), nor a `0x`/`0o`/`0b` integer |
| ContactForm.With | src/pages/Contact.jsx:28-30 | the named field takes the new value and the other three keep theirs |
| ContactForm.IsConfigured | src/pages/Contact.jsx:24-26 | true exactly when none of the three credentials is undefined or the empty string |
| ContactForm.Change | src/pages/Contact.jsx:28-30 | the named field takes the typed value; the other fields, the status and the detail are kept |
| ContactForm.Gate | src/pages/Contact.jsx:35-70 | the first gate that fails decides the verdict, in the order completeness, contact, configuration; a send happens exactly when all pass and carries the credentials and the whole draft |
| ContactForm.Headline | src/pages/Contact.jsx:79-80 | the reason's head is the text if non-empty, else the message if non-empty, else "Unknown error", and is never empty |
| ContactForm.StatusSuffix | src/pages/Contact.jsx:81 | the suffix is empty exactly when the status is absent or 0; otherwise it is ` (status N)` with N written without leading zeros, and N parses back to the status |
| ContactForm.FailureReason | src/pages/Contact.jsx:79-81 | the reason starts with the headline; it is the headline alone exactly when the status is absent or 0, and otherwise the headline followed by ` (status N)` with N the rendering of the status |
| ContactForm.Submit | src/pages/Contact.jsx:32-71 | the draft is never changed; a request goes out exactly when all three gates pass and carries the whole draft; a refusal at the first two gates keeps the detail |
| ContactForm.Delivered | src/pages/Contact.jsx:73-76 | success shows the sent status and empties the draft, keeping the detail |
| ContactForm.DeliveryFailed | src/pages/Contact.jsx:77-86 | failure shows the failed status and the reason detail and keeps the draft |
| ContactForm.FailureDetail | src/pages/Contact.jsx:83-85 | the detail is "Reason: ", the reason, then ". If this persists, verify service/template/public key and template variables match." |
| ContactForm.Attempt | src/pages/Contact.jsx:32-87 | a whole attempt ends in one of the five final messages, never in "Sending...", and in the sent message exactly when a request went out and succeeded |
| ContactForm.IncompleteFormRejected | src/pages/Contact.jsx:35-38 | with an empty field: fill-in status, no send, form and errorDetail unchanged |
| ContactForm.EarlierGateDecides | src/pages/Contact.jsx:35-55 | an incomplete draft is refused whatever its contact and the credentials; a refused contact whatever the credentials |
| ContactForm.EmailShapedIsNaN | src/pages/Contact.jsx:40-42 | an email-shaped contact is always NaN, so the numeric fallback never overrides the email test |
| ContactForm.ContactRefusedIffBothChecksFail | src/pages/Contact.jsx:40-45 | a complete draft gets the invalid-contact status exactly when the contact fails the pattern and `isNaN` holds |
| ContactForm.NumericContactsAccepted | src/pages/Contact.jsx:42-45 | digit strings, with or without `+`, and blank contacts pass the contact gate |
| ContactForm.NotConfiguredNoSend | src/pages/Contact.jsx:47-55 | a valid draft with a missing or empty credential gets the not-configured status and the template hint, and nothing is sent |
| ContactForm.DispatchSendsDraft | src/pages/Contact.jsx:57-70 | when all gates pass: "Sending...", errorDetail cleared, draft kept, and from_name/contact_info/subject/message carry name/contact/subject/message |
| ContactForm.FormResetOnlyOnSuccess | src/pages/Contact.jsx:72-87 | after an attempt the draft is empty if a send went out and succeeded, and unchanged otherwise |
| ContactForm.FailureReported | src/pages/Contact.jsx:77-86 | on failure: form kept, "❌ Failed to send.", detail starts with "Reason: " and the headline and ends with the remediation sentence |
| ContactForm.TemplateErrorReason | src/pages/Contact.jsx:79-81 | status 422 with text "template error" gives "template error (status 422)" |
| ContactForm.FallbackReasons | src/pages/Contact.jsx:79-81 | empty text falls back to the message, status 0 is not shown, and no fields give "Unknown error" |
| ContactForm.CompleteDraftDelivered | src/pages/Contact.jsx:32-76 | a complete draft with a typical address, configured credentials and a succeeding client ends with the success status and an empty form |
| ContactForm.StepsKeepConsistent | src/pages/Contact.jsx:28-87 | every step keeps the display consistent: "Sending..." has no detail, not-configured shows the hint, failure shows a reason |
| ContactPage.Contact.constructor | src/pages/Contact.jsx:11-26 | the page starts with an empty draft and empty status and detail |
| ContactPage.Contact.HandleChange | src/pages/Contact.jsx:28-30 | only the named field of the draft changes |
| ContactPage.Contact.HandleSubmit | src/pages/Contact.jsx:32-71 | the in-place submit leaves the state and issues the request that the submission step prescribes |
| ContactPage.Contact.OnSent | src/pages/Contact.jsx:73-76 | success sets the sent status and empties the draft |
| ContactPage.Contact.OnSendFailed | src/pages/Contact.jsx:77-86 | failure sets the failed status and the reason detail, keeping the draft |
| ContactPage.Contact.SubmitAndSettle | src/pages/Contact.jsx:32-88 | a whole attempt moves the state as the attempt function does |
| PublicUrl.StripLeadingSlashes | src/pages/Contact.jsx:8 | the result is no longer than the path and does not start with `/` |
| PublicUrl.StripRemovesLeadingRun | src/pages/Contact.jsx:8 | the path is a run of `/` characters followed by the result, so only the leading slashes are removed |
| PublicUrl.PublicUrl | src/pages/Contact.jsx:8 | the address starts with the base, is at most the base plus the path, and what follows the base does not start with `/` |
| PublicUrl.PublicUrlShape | src/pages/Contact.jsx:8 | the address is the base followed by the path from its first character that is not `/`; everything skipped is `/` |
| PublicUrl.SlashesIgnored | src/pages/Contact.jsx:8 | any number of leading slashes give the same address as none |
| PublicUrl.StripIdempotent | src/pages/Contact.jsx:8 | stripping twice is stripping once |
| PublicUrl.IconUrl | src/pages/Contact.jsx:91-94 | `github.png` and `//github.png` both resolve to the base followed by `github.png` |

## Left out

- The `emailjs.send` network call is not modelled. `HandleSubmit` returns the request it would pass, and the way the call settles is an `Outcome` parameter.
- `console.error` logging and `e.preventDefault()` are left out; they change none of the modelled state.
- Reading `import.meta.env` is replaced by parameters: the three credentials are given to the constructor, and the base URL is given to `PublicUrl`.
- Overlapping submissions are not modelled. Each attempt settles before the next, and the handlers may be called in any state.
- All rendering, animation, the `quickLinks` data, `src/pages/Home.jsx` and `src/App.jsx` are left out. They are static layout and routing with no logic; Home's `publicUrl` is the same function as Contact's.
- The `required` attributes of the four inputs (src/pages/Contact.jsx:154-157) are left out; the model covers `handleSubmit` alone. In a browser with native form validation an empty field blocks the submit before `handleSubmit` runs, so the fill-in status is reached only without that validation, while a whitespace-only field still passes both.
- Strings are sequences of Unicode scalar values rather than UTF-16 code units. Lone surrogates cannot be expressed, and no character outside the Basic Multilingual Plane is whitespace or `@`, so the checks are unaffected.
- `handleChange` is modelled only for the four input names the form renders. An event naming another key would add that key to the state object.
- `DeliveryError` fields are modelled as optional strings and an optional integer. A non-string truthy `text` or `message`, or a non-integral or NaN status, is not modelled.
- StatusSuffix: renders every integer status in exact plain decimal. JavaScript writes magnitudes of 10^21 and above in exponent notation, and above 2^53 it writes the shortest digits that read back to the same double (`${2**60}` is `1152921504606847000`).
- DecimalString: is exact for every integer, while JavaScript's `${n}` is exact only up to 2^53 in magnitude. Above that it writes the shortest round-trip digits (`1152921504606847000` for 2^60 rather than `1152921504606846976`), and from 10^21 it uses exponent notation. The round trip and injectivity proved here hold of JavaScript's rendering too.
