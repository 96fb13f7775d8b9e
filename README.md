# Registration page rules, AQI display and city cascade — a Dafny model

This project models the client-side logic of a registration page. It covers two versions of the page's script, which work over the same element ids:

- `script.js` checks the eight form fields one validator at a time, showing each message in its field's error slot. It fills the city selector from the selected country. It shows a mock air-quality reading, coloured by its tier.
- `validation.js` is a stand-alone submit handler. It checks the same eight fields with a looser policy and writes its messages into the error elements with the same ids.

Layout:

- `wrappers.dfy`: the `Option` type used for "valid or error message".
- `text.dfy`: `trim()` and the ECMAScript `\s` class.
- `email.dfy`: the e-mail pattern `^[^\s@]+@[^\s@]+\.[^\s@]+$`. It is written two ways, as the language it denotes and as a decision procedure, and a lemma proves the two agree.
- `dates.dfy`: age in whole years from calendar triples, and instants for the "in the past" comparison.
- `form.dfy`: the fields, the values entered, and the position of each field's error slot.
- `registration_rules.dfy`: the `script.js` validators, as functions from values to `Option<message>`, and the form-level verdict.
- `handler_rules.dfy`: the `validation.js` checks, and lemmas stating exactly how the two policies differ.
- `aqi.dfy`: the tier table, the first-match lookup with its "Unknown" fallback, and the colour classes.
- `cities.dfy`: the country-to-city catalog.
- `registration_page.dfy`: the `script.js` page as a class. The handlers for country change, city change, AQI display, per-field validation and submit are methods over its fields.
- `handler_page.dfy`: the `validation.js` handler as a class. It clears the error elements, runs the eight checks and, when all pass, shows the success message and resets the form.

The random AQI draw, today's date, the current instant and the values read from the inputs are all parameters of the model.

On the date of birth, the two scripts disagree with each other. The model follows the code:

- `script.js` checks only the minimum age of 13. A future date fails because its age is negative.
- `validation.js` checks only that the date's midnight lies strictly before the present moment. There is no age floor.

`HandlerRules.DobPolicies`, `HandlerRules.YesterdayPassesOnlyTheHandler` and `HandlerRules.MainPolicyIsStricter` state the difference exactly.

## Model

| member | source | states |
|---|---|---|
| Text.TrimStartSpec | script.js:244 | The leading part of `trim()`: it keeps a suffix of the value that does not start with whitespace, and everything it drops is whitespace. |
| Text.TrimEndSpec | script.js:244 | The trailing part of `trim()`: it keeps a prefix that does not end with whitespace, and everything it drops is whitespace. |
| Text.TrimSpec | script.js:244 | `trim()` returns the contiguous slice of the value that neither starts nor ends with whitespace, and both cut-off parts are all whitespace. |
| Text.TrimEmptyIffBlank | script.js:244-250 | A trimmed value is empty exactly when the raw value is all whitespace (so "required" means "not blank"). |
| Email.IndexOfSpec | script.js:269 | The first-'@' search returns None exactly when there is no '@'. Otherwise it returns an index holding '@' with no '@' before it. |
| Email.IsEmailAddressIff | script.js:269-279 | The e-mail test accepts exactly the strings of the pattern: three non-empty runs without whitespace or '@', joined by '@' and then '.'. |
| Email.EmailHasOneAt | script.js:269 | An accepted address contains exactly one '@'. |
| Dates.AgeAtLeastIff | script.js:344-351 | The age computed from year, month and day is at least n exactly when the n-th birthday is today or earlier. |
| Dates.FutureBirthNegativeAge | script.js:344-349 | A birth date after today gives a negative age. |
| Dates.AgeMonotone | script.js:344-349 | The computed age never decreases as today moves forward. |
| RegistrationRules.NameErrorMeaning | script.js:243-264 | For the trimmed name: blank gives "Full name is required"; 1–2 characters give "too short"; a longer value with a character outside `[a-zA-Z\s]` gives the character message; otherwise valid. Each message occurs exactly for its inputs. |
| RegistrationRules.AcceptedNameEndsWithLetters | script.js:244-260 | An accepted name, once trimmed, begins and ends with a letter. |
| RegistrationRules.EmailErrorMeaning | script.js:266-283 | Blank gives "Email is required". Otherwise the field is valid exactly when the trimmed value matches the pattern, and reports the invalid-address message when it does not. |
| RegistrationRules.PasswordErrorMeaning | script.js:285-311 | The untrimmed password is valid iff it has 8 or more characters, an `A-Z` and a `0-9`. The message is the first failing rule: empty, short, no upper case, no digit. |
| RegistrationRules.ConfirmErrorMeaning | script.js:313-330 | Empty gives "Please confirm your password". Otherwise the field is valid exactly when it equals the password, and reports "Passwords do not match" when it does not. |
| RegistrationRules.DobErrorMeaning | script.js:332-358 | No date gives "required". Otherwise the date is valid exactly when the 13th birthday is not after today, and reports the age message when it is. A future date always fails. |
| RegistrationRules.GenderError | script.js:360-371 | Valid exactly when a gender is checked, otherwise "Please select a gender". |
| RegistrationRules.CountryError | script.js:373-384 | Valid exactly when the country value is non-empty, otherwise "Please select a country". |
| RegistrationRules.TermsError | script.js:386-397 | Valid exactly when the box is ticked, otherwise the terms message. |
| RegistrationRules.FormValidIffNoFieldError | script.js:226-240 | The form verdict holds exactly when no field's validator reports an error. |
| RegistrationRules.FormValidIff | script.js:226-240 | The form verdict spelled out as the conjunction of all eight rule sets. |
| RegistrationRules.MessagesNonEmpty | script.js:243-397 | Every message a validator reports is non-empty. |
| RegistrationRules.BlankFormFailsEveryField | script.js:243-397 | A blank form (the state after a reset) fails every one of the eight validators. |
| HandlerRules.SignupNameErrorMeaning | validation.js:33-38 | The name check fails only on a blank value, with "Full name is required". There is no length or character rule. |
| HandlerRules.SignupEmailErrorMeaning | validation.js:40-48 | Blank gives "Email is required". Otherwise the check passes exactly when the trimmed value matches the pattern, and reports "Please enter a valid email" when it does not. |
| HandlerRules.SignupPasswordErrorMeaning | validation.js:50-58 | At most one message: "required" when empty, else "too short" under 8 characters. A password of 8 or more characters passes. |
| HandlerRules.SignupDobErrorMeaning | validation.js:70-82 | "required" when absent. Otherwise "Date must be in the past" exactly when the date's midnight is not strictly before now. With `now` read in UTC, a date of birth equal to the UTC date passes at every moment except midnight. |
| HandlerRules.SignupValidIffNoFieldError | validation.js:31-103 | The handler's `isValid` holds exactly when none of the eight checks reports an error. |
| HandlerRules.SignupValidIff | validation.js:31-106 | The handler's verdict spelled out as the conjunction of its eight rule sets. |
| HandlerRules.NamePolicies | validation.js:34-38 | `script.js` accepts a name exactly when this handler does and, in addition, the trimmed name has at least 3 characters, all of them letters or whitespace. |
| HandlerRules.EmailPolicies | validation.js:128-132 | Both scripts accept exactly the same e-mail values, and both report "required" on the same values. |
| HandlerRules.PasswordPolicies | validation.js:51-58 | `script.js` accepts a password exactly when this handler does and, in addition, it has an upper-case letter and a digit. |
| HandlerRules.DobPolicies | validation.js:71-82 | `script.js` accepts a date of birth exactly when this handler accepts it and the age is at least 13. |
| HandlerRules.YesterdayPassesOnlyTheHandler | validation.js:76-79 | A concrete date of birth, yesterday, that this handler accepts and `script.js` rejects as too young. |
| HandlerRules.MainPolicyIsStricter | validation.js:27-112 | Every form that `script.js` accepts, this handler accepts too. |
| Aqi.FindTier | script.js:132-134 | The lookup returns the first tier whose inclusive range holds the value, or none when no tier does. |
| Aqi.ContiguousCover | script.js:16-23 | In a contiguous table at most one tier holds a value. Some tier holds it exactly when the value lies between the first low and the last high. |
| Aqi.AscendingLows | script.js:16-23 | In a contiguous table each later tier lies wholly above each earlier one. |
| Aqi.TiersCover | script.js:16-23 | The six tiers are contiguous and cover 0 to 500. |
| Aqi.StatusOf | script.js:132-134 | The status is "Unknown" exactly outside 0..500. Otherwise it is the status of a tier whose range holds the value. |
| Aqi.ColourOf | script.js:139-157 | A status gets a colour class exactly when its level is in the colour table, and the class is one of the six colour classes. |
| Aqi.ColourExactlyInRange | script.js:139-157 | A value gets a colour class exactly when it lies in 0..500. |
| Aqi.DrawLandsInFirstFiveTiers | script.js:116 | A draw in [0, 300) always lands in one of the first five tiers: never "Hazardous" and never "Unknown". |
| Cities.CitiesOf | script.js:100-101 | A country in the catalog gets its catalog list. An empty or unknown selection gets no cities. |
| Cities.CatalogShape | script.js:7-13 | The catalog has no entry for the empty placeholder, and each country lists five cities. |
| RegistrationPage.SlotFor | script.js:399-412 | A failed rule leaves its message shown. A passing rule leaves the slot empty and hidden. |
| RegistrationPage.ReportedSlots | script.js:226-240 | After form validation every field's slot holds exactly its own validator's verdict. |
| RegistrationPage.ReportedIgnoresPrevious | script.js:185-192 | Because every slot is overwritten, the slots after a submit do not depend on what earlier attempts left behind. |
| RegistrationPage.CityOptions | script.js:101-106 | One option per city, in catalog order, each with the city as both value and text. |
| RegistrationPage.Page.HandleCountryChange | script.js:91-108 | The AQI display is reset to "--" and the prompt. The city list becomes the placeholder followed by exactly the country's catalog cities, in order (the placeholder alone for an empty or unknown country). The result depends only on the country, so repeating the change gives the same list. |
| RegistrationPage.Page.constructor | script.js:48-50 | The page as the load listener finds it: inputs blank, every error slot empty and hidden, the city list at its "Select a country first" placeholder, the AQI display at "--" and the prompt, no colour class, success hidden. |
| RegistrationPage.Page.HandleCityChange | script.js:113-122 | The placeholder city resets the display. A real city shows the draw and its tier's status line, which is never "Unknown". The value element then carries exactly one colour class, the drawn tier's own, and its other classes are untouched. |
| RegistrationPage.Page.DisplayAqiData | script.js:128-158 | The display shows the value and the line "{level} - {description}" of its tier, or of Unknown. Afterwards the only colour class left is the tier's own (none for Unknown), and non-colour classes are untouched. |
| RegistrationPage.Page.ShowError | script.js:400-405 | Only the named field's slot changes: it holds the message and is displayed. |
| RegistrationPage.Page.ClearError | script.js:407-412 | Only the named field's slot changes: it is emptied and hidden. |
| RegistrationPage.Page.ClearErrors | script.js:414-419 | The loop empties and hides every error slot. |
| RegistrationPage.Page.Report | script.js:247-263 | Shows the failing rule's message, or clears the slot, and returns whether the field passed. |
| RegistrationPage.Page.ValidateName | script.js:243-264 | Leaves the name rule's verdict in the name slot only, and returns true exactly when the name is valid. |
| RegistrationPage.Page.ValidateEmail | script.js:266-283 | As above, for the e-mail rule. |
| RegistrationPage.Page.ValidatePassword | script.js:285-311 | As above, for the password rule. |
| RegistrationPage.Page.ValidateConfirmPassword | script.js:313-330 | As above, for the confirmation rule. |
| RegistrationPage.Page.ValidateDob | script.js:332-358 | As above, for the minimum-age rule. |
| RegistrationPage.Page.ValidateGender | script.js:360-371 | As above; true exactly when a gender is checked. |
| RegistrationPage.Page.ValidateCountry | script.js:373-384 | As above; true exactly when a country is selected. |
| RegistrationPage.Page.ValidateTerms | script.js:386-397 | As above; true exactly when the terms are accepted. |
| RegistrationPage.Page.ValidateRegistrationForm | script.js:226-240 | All eight validators run with no short-circuit. The result is true exactly when the form is valid, and every slot holds its own validator's verdict. |
| RegistrationPage.Page.HandleRegistrationSubmit | script.js:185-200 | After a submit every slot holds its field's verdict. On a valid form: success shown, values blank, city list collapsed to "Select a country first", AQI display reset. On an invalid form nothing but the error slots changes. |
| HandlerPage.SignupOutcomesAt | validation.js:31-103 | The handler's outcome list holds, at each field's slot, that field's check outcome. |
| HandlerPage.SignupMessageShownIffFailed | validation.js:29-103 | After a submit a field's error element holds text exactly when that field's check failed, and then it holds that check's message. |
| HandlerPage.SignupValidIffNoMessage | validation.js:29-106 | After a submit every error element is empty exactly when the handler accepts the form. |
| HandlerPage.PostAllOnCleared | validation.js:121-126 | Run over cleared elements, the checks leave each field's element holding its own message or nothing. |
| HandlerPage.Page.constructor | validation.js:2-9 | The page as the load listener finds it: inputs blank, every error element empty, success message hidden. |
| HandlerPage.Page.ShowError | validation.js:115-118 | Only the named field's element changes: it holds the message. |
| HandlerPage.Page.ClearErrors | validation.js:121-126 | The loop empties every error element. |
| HandlerPage.Page.CheckName | validation.js:33-38 | Writes "Full name is required" on a blank name and leaves the element alone otherwise. Returns whether the check passed. |
| HandlerPage.Page.CheckEmail | validation.js:40-48 | Writes the first failing message ("required", then the pattern) and returns whether the check passed. |
| HandlerPage.Page.CheckPassword | validation.js:50-58 | Writes the first failing message ("required", then fewer than 8 characters) and returns whether the check passed. |
| HandlerPage.Page.CheckConfirmPassword | validation.js:60-68 | Writes the first failing message ("confirm", then mismatch) and returns whether the check passed. |
| HandlerPage.Page.CheckDob | validation.js:70-82 | Writes "required", or "Date must be in the past" when the date is not strictly before now, and returns whether the check passed. |
| HandlerPage.Page.CheckGender | validation.js:84-89 | Writes the gender message when none is checked. Returns true exactly when a gender is checked. |
| HandlerPage.Page.CheckCountry | validation.js:91-96 | Writes the country message on an empty selection. Returns true exactly when a country is selected. |
| HandlerPage.Page.CheckTerms | validation.js:98-103 | Writes the terms message when the box is unticked. Returns true exactly when it is ticked. |
| HandlerPage.Page.RunChecks | validation.js:31-103 | All eight checks run in order with no short-circuit. Each failing check posts its message to its own element. `isValid` ends true exactly when the handler's verdict holds. |
| HandlerPage.Page.Submit | validation.js:27-112 | Afterwards each error element holds its field's message or nothing. When all checks pass, the success message is shown and the form is blank. Otherwise the values and the success message are unchanged. |

## Left out

- Event-listener wiring, element lookups by id or selector, and rendering through `innerHTML` and `createElement`. Field values and error elements are fields of the page classes, and the city list is a sequence of options.
- The modal show and hide handlers, the close buttons and the alert-only login handler. Each is a single class toggle or an alert, with no logic.
- The blur listeners that run the name, e-mail, password, confirmation and date validators one at a time. Each validator method models one such run.
- `Math.random`: the draw is a parameter with `0 <= draw < 300`, the range `Math.floor(Math.random() * 300)` produces.
- `new Date()` and the parsing of the date input. Today's date and the current instant are parameters. The date of birth is a (year, month, day) triple, or `None` when the input is empty. The model assumes the input holds either nothing or a valid date. A non-empty value that `new Date` cannot parse gives an invalid date, and every comparison with it is false. Such a value passes both scripts' date checks, because `age < 13` and `dobDate >= today` are both false, and `Option<Date>` cannot represent it.
- Time zones. `validation.js` compares the UTC midnight of the entered date with the current instant. The model's `now` is that instant read in UTC, so `now.date` is the UTC date. Under that reading `SignupDobError` is exactly the source's comparison. `script.js` computes the age with local-time getters, so its `today` is the user's local date. `DobPolicies`, `YesterdayPassesOnlyTheHandler` and `MainPolicyIsStricter` pass `now.date` as that `today`, so they treat the UTC date and the local date as one date. The model does not capture what happens where the two differ:
  - East of UTC (Bangladesh, India, Australia), `validation.js` rejects a date of birth equal to the user's local date with "Date must be in the past" until the UTC day begins, for example until 06:00 in Dhaka.
  - West of UTC, tomorrow's local date passes `validation.js` once the UTC day has begun, for example after 19:00 at UTC−5.
  - West of UTC, `script.js` reads the entered date as the day before, because its UTC midnight falls on the previous local day.
- `setTimeout` in `validation.js`: the success message and reset happen at once instead of half a second later.
- `form.reset()` restores each input's HTML default. The model takes every default to be empty, unselected or unticked (`Form.Blank`).
- String lengths: JavaScript's `.length` counts UTF-16 code units, but the model counts code points. The two differ for characters outside the Basic Multilingual Plane.
- Property lookup on the city catalog object: a country value such as `"constructor"` would hit an inherited member in JavaScript. The model's catalog is a plain map.
- The regular-expression engine. Each pattern is an explicit predicate over characters, and `\s` is the fixed ECMAScript whitespace and line-terminator set.
- The two scripts running on one page. Each is modelled as its own `Page`. If both were loaded, both submit listeners would run on each submit, and the error texts would be those of whichever ran last. The model does not capture that interaction.
- The page's initial HTML is not part of the source. Both constructors assume blank inputs, empty and hidden error slots, the "Select a country first" placeholder, "--" with the AQI prompt, no colour class, and a hidden success message.
- Error elements other than the eight field slots. Both `clearErrors` functions visit every `.error` element on the page, but the model has only the eight field slots.
- The colour classes are not reset on a country change or on a successful submit, matching the code. The model states that `aqiClasses` is unchanged by the submit handler.
- HandlerPage.Page.RunChecks: the handler's eight inline blocks are split into one check method each. Each method returns whether it passed, and `isValid` is cleared when one did not, as the inline `isValid = false` does.
- HandlerPage.Page.CheckName and the other check methods, and RegistrationPage.Page.ValidateName and the other validators, take the field's value as a parameter instead of reading the element. The handlers pass the page's values.
