# TextValidator registration form, in Dafny

This project models the validation core of the TextValidator Android app,
which lives in its single activity, `MainActivity`. The form has three edit
texts (email, password, phone) and an age slider whose value is written into
a text label. Each edit text has a helper text under it.

- **Field validators** (module `Validators`). These are pure functions from a
  field's text to its helper text. `None` (Kotlin's `null`) means valid;
  otherwise the result is a fixed Spanish message. The checks run in the
  source's order, and the first one that fails decides the message:
  - password: length, then an uppercase letter, then a lowercase letter, then
    one of `@#$%^&+=`;
  - phone: some digit, then a length of exactly 10;
  - age: the label parses as an integer and that integer is at least 18;
  - email: decided by Android's email matcher, which is a parameter here.
- **Kotlin text semantics** (module `KotlinText`). The validators rely on these
  library behaviours:
  - `matches(".*[k].*")` matches the WHOLE string, and `.` excludes Java's line
    terminators. So the check really means "has a `k` character and has no
    line break". `InLanguage` gives the regular expression's language as a
    reference, and a lemma shows that the matcher agrees with it.
  - `String.length` counts UTF-16 code units.
  - `toIntOrNull` accepts an optional sign, then digits, and a value in the
    32-bit range.
  - `Int.toString` is proved to round-trip through `toIntOrNull`.
- **Form state** (module `Form`, class `FormState`). The class holds the edit
  texts, the age label and the three helper texts. Its methods are:
  - the slider's change listener;
  - the three focus listeners;
  - `submitForm`;
  - the invalid-form summary builder;
  - the reset done when the success dialog is confirmed.

  `Concat(Sections(...))` is the reference definition of the summary: one
  section per failing item, always in the order email, password, phone, age,
  joined. The imperative builder is proved to produce exactly that text.
- **Concrete verdicts** (module `Verdicts`). Inputs such as `"abcdefghi9"`
  show the loose phone rule: it accepts ten characters of which only one is
  a digit. The model keeps this behaviour as the app has it.

Two details follow the code exactly:
- the messages are the Spanish strings the app shows;
- the age check parses the label's text with `toIntOrNull`; it is not given a number.

## Model

| member | source | states |
|---|---|---|
| KotlinText.MatchesAround | app/src/main/java/com/itson/textvalidator/MainActivity.kt:135-141 | `s.matches(".*[k].*")` holds iff `s` has a character of class `k` and no line terminator at all |
| KotlinText.MatchesAroundIsRegexMatch | app/src/main/java/com/itson/textvalidator/MainActivity.kt:158 | the matcher accepts exactly the strings of the language of `.*[k].*`: a dot-only prefix, one class character, a dot-only suffix |
| KotlinText.Utf16Length | app/src/main/java/com/itson/textvalidator/MainActivity.kt:132 | Kotlin's `length` lies between the number of characters and twice that number |
| KotlinText.Utf16LengthOfBmp | app/src/main/java/com/itson/textvalidator/MainActivity.kt:161 | for text without characters beyond U+FFFF, Kotlin's `length` is the number of characters |
| KotlinText.ParseInt | app/src/main/java/com/itson/textvalidator/MainActivity.kt:169 | `toIntOrNull` yields only 32-bit values; a result means the text ends in a digit, and a negative result means it starts with `-` |
| KotlinText.ParseIntRejectsNonDigit | app/src/main/java/com/itson/textvalidator/MainActivity.kt:169 | any non-digit after the optional leading sign makes `toIntOrNull` return null |
| KotlinText.IntToDecimal | app/src/main/java/com/itson/textvalidator/MainActivity.kt:38-39 | `Int.toString` is non-empty and ends in a digit; it starts with a digit iff the value is non-negative |
| KotlinText.ParseIntOfIntToDecimal | app/src/main/java/com/itson/textvalidator/MainActivity.kt:38-39 | reading back the label that `Int.toString` wrote gives the same integer |
| Validators.ValidateEmail | app/src/main/java/com/itson/textvalidator/MainActivity.kt:114-120 | null iff the email matcher accepts the text; otherwise "Dirección de Email Inválida" |
| Validators.ValidatePassword | app/src/main/java/com/itson/textvalidator/MainActivity.kt:130-146 | fewer than 8 UTF-16 units gives the length message whatever the content; then the uppercase, lowercase and special messages in that priority; null iff all four rules hold (single-line text) |
| Validators.ValidatePhone | app/src/main/java/com/itson/textvalidator/MainActivity.kt:156-166 | no digit (or a line break) gives "Debe Contener Solo Dígitos" regardless of length; a digit but length not 10 gives "Debe Contener 10 Dígitos"; null iff some digit and length 10 |
| Validators.ValidateAge | app/src/main/java/com/itson/textvalidator/MainActivity.kt:168-171 | a passing label parses to an integer between 18 and the 32-bit maximum; it is non-empty and does not start with `-` |
| Validators.AgeOfDecimalLabel | app/src/main/java/com/itson/textvalidator/MainActivity.kt:168-171 | on a label written by `Int.toString(n)`, the age check holds iff `n >= 18` |
| Validators.ValidatorMessagesAreKnown | app/src/main/java/com/itson/textvalidator/MainActivity.kt:114-166 | every message a validator returns is one of its field's fixed, non-empty messages |
| Validators.MultiLinePasswordRejected | app/src/main/java/com/itson/textvalidator/MainActivity.kt:132-137 | a password containing a line break gets the length message if short, otherwise the uppercase message |
| Verdicts.LoosePhoneAccepted | app/src/main/java/com/itson/textvalidator/MainActivity.kt:158-165 | "abcdefghi9" passes the phone check although it is not all digits |
| Verdicts.ShortPassword | app/src/main/java/com/itson/textvalidator/MainActivity.kt:132-134 | "Ab1@" gets the length message |
| Verdicts.PasswordWithoutUppercase | app/src/main/java/com/itson/textvalidator/MainActivity.kt:135-137 | "alllowercase1@" gets the uppercase message |
| Verdicts.PasswordWithoutLowercase | app/src/main/java/com/itson/textvalidator/MainActivity.kt:138-140 | "ALLUPPERCASE1@" gets the lowercase message |
| Verdicts.PasswordWithoutSpecial | app/src/main/java/com/itson/textvalidator/MainActivity.kt:141-143 | "Abcdefgh1" gets the special-character message |
| Verdicts.GoodPassword | app/src/main/java/com/itson/textvalidator/MainActivity.kt:130-146 | "Abcdefg1@" is valid |
| Verdicts.PhoneExamples | app/src/main/java/com/itson/textvalidator/MainActivity.kt:156-166 | ten letters, nine digits and ten digits get the digit message, the length message and null |
| Verdicts.AgeExamples | app/src/main/java/com/itson/textvalidator/MainActivity.kt:168-171 | "17", "" and "dieciocho" fail the age check; "18" passes |
| Form.ConcatEmptyIff | app/src/main/java/com/itson/textvalidator/MainActivity.kt:66-75 | a joined list of sections is empty iff every section is empty |
| Form.ConcatOfFour | app/src/main/java/com/itson/textvalidator/MainActivity.kt:66-75 | joining four sections gives them one after another, in list order |
| Form.AppendSection | app/src/main/java/com/itson/textvalidator/MainActivity.kt:66-75 | appending a heading and helper text only when the helper text is set appends exactly that field's section |
| Form.SummaryInOrder | app/src/main/java/com/itson/textvalidator/MainActivity.kt:66-75 | the summary is the email, password, phone and age sections in that order, a passing item contributing nothing |
| Form.SummaryEmptyIff | app/src/main/java/com/itson/textvalidator/MainActivity.kt:66-75 | the summary is empty iff no helper text is set and the age check holds, so a rejected form always lists something |
| Form.AcceptanceRule | app/src/main/java/com/itson/textvalidator/MainActivity.kt:55-60 | all validators pass iff the email matches, the four password rules hold, the phone has a digit and length 10, and the label parses to at least 18 |
| Form.FormState.SliderMoved | app/src/main/java/com/itson/textvalidator/MainActivity.kt:37-40 | the label becomes the value's decimal text and nothing else changes; the age check then holds iff the value is at least 18 |
| Form.FormState.EmailFocusChanged | app/src/main/java/com/itson/textvalidator/MainActivity.kt:106-112 | losing focus sets only the email helper text to the email verdict; gaining focus changes nothing |
| Form.FormState.PasswordFocusChanged | app/src/main/java/com/itson/textvalidator/MainActivity.kt:122-128 | losing focus sets only the password helper text to the password verdict; gaining focus changes nothing |
| Form.FormState.PhoneFocusChanged | app/src/main/java/com/itson/textvalidator/MainActivity.kt:148-154 | losing focus sets only the phone helper text to the phone verdict; gaining focus changes nothing |
| Form.FormState.InvalidSummary | app/src/main/java/com/itson/textvalidator/MainActivity.kt:66-75 | the appended text equals the reference summary of the helper texts and age verdict, and is empty iff nothing failed |
| Form.FormState.Submit | app/src/main/java/com/itson/textvalidator/MainActivity.kt:49-90 | overwrites the three helper texts with their verdicts and changes nothing else; accepts iff all three are null and the age check holds; acceptance shows the four submitted values, rejection shows a non-empty summary |
| Form.FormState.ConfirmSuccess | app/src/main/java/com/itson/textvalidator/MainActivity.kt:94-101 | empties the three edit texts and sets every helper text to the "required" placeholder; the age label is unchanged |

`FormState.Valid()` is the object invariant: each helper text is empty, the
placeholder, or one of its own validator's messages. The constructor and
`Submit` establish it, `ConfirmSuccess` re-establishes it, and the other
methods preserve it. `Form.AcceptedSubmission` is a client: a correctly
filled form is accepted, and confirming the dialog clears it.

## Left out

- Activity lifecycle, layout inflation and listener registration (`onCreate`, `setupFocusListeners`): Android wiring with no logic.
- The slider's configuration (`setupSlider`, floating-point step and range): only the integer label it writes is modelled, as `SliderMoved` on values 1 to 100.
- The internals of Android's `Patterns.EMAIL_ADDRESS`: that library regex is not part of this model. It is the function-typed constant `isEmail` of the form, and `ValidateEmail` takes it as a parameter.
- Construction and display of the `AlertDialog`s, their titles and buttons: UI. The dialog texts are kept (`Outcome`), and so is the reset done when the success dialog is confirmed. The "Entendido" button of the invalid dialog does nothing, so it has no method.
- The `getString(R.string.required)` resource lookup: the placeholder is an opaque constant `required`, given to the constructor.
- The initial helper texts and age label come from the layout, which is not part of this model. The constructor takes the label and shows the placeholder under each field.
- The no-op label reassignment in `submitForm`. The second `validarTelefono()` call is modelled as the phone verdict just stored, because the validator is deterministic.
- Material's `TextInputLayout` turns an empty helper text into `null`. This is not modelled; the model assumes the `required` resource is non-empty.
- KotlinText.ParseInt: accepts only ASCII digits 0-9. Kotlin's `toIntOrNull` also accepts other Unicode decimal digits (for example Arabic-Indic), which a slider label never contains.
- KotlinText.Utf16Length: assumes well-formed text. A Kotlin string can hold unpaired surrogates, which Dafny's characters cannot represent.
