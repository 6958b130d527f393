# Emergency leak service intake — client rules in Dafny

This project models the client-side rules of the emergency leak service
intake app and proves properties about them. It covers five parts:

- **The validator** (`IntakeValidation`): the intake record, its initial
  value, the `isEmail` and `isPhone` tests, and the fifteen checks of
  `validateEmergencyLeakServiceForm`.
- **The intake form component** (`IntakeForm`):
  - the field updaters;
  - the prefill merge;
  - the debounced prefill gate, keyed on trimmed `companyName::email`;
  - the submit sequence.
- **The header's lookup box** (`IntakeHeader`): the lookup mode inferred
  from the typed value, and the lookup it dispatches.
- **The order-status panel** (`OrderStatusPanel`):
  - the label tables and detail-value rules;
  - the hide-when-empty `Detail` rule;
  - the leak cards;
  - the screen chosen from the panel's state;
  - the state change of one status fetch.
- **The prefill endpoint** (`PrefillRoute`): its 400 or 200 decision.

`JsText` holds the JavaScript string behaviour these rules rely on:

- `trim` over the ECMAScript whitespace set;
- `includes`;
- `filter(Boolean)` and `join`;
- decimal rendering of integers.

State the source changes in place is held in classes:

- `IntakeFormComponent`: the four state hooks, the last-lookup ref, the
  lookup waiting on the debounce timer, and the values the prefill effect
  last ran with.
- `IntakeHeaderComponent`: the lookup mode.
- `OrderStatusPanelComponent`: status, data, message, the loading flag and
  the error.

Events are methods, such as a committed render, the timer firing, and a
request completing. The outcomes of network calls are parameters of those
methods.

## Model

| member | source | states |
|---|---|---|
| JsText.Trim | helpers/emergencyLeakServiceForm.ts:32 | `trim` returns a string no longer than its input, with whitespace on neither end |
| JsText.TrimSpec | helpers/emergencyLeakServiceForm.ts:32 | `trim(s)` is the slice of `s` left after removing a whitespace-only prefix and a whitespace-only suffix, and has whitespace on neither end |
| JsText.TrimIdempotent | components/EmergencyLeakServiceForm.tsx:106-107 | trimming an already trimmed value changes nothing |
| JsText.BlankIffTrimEmpty | helpers/emergencyLeakServiceForm.ts:45 | `!s.trim()` holds exactly when every character of `s` is whitespace |
| JsText.NonEmptyParts | components/emergencyLeakService/OrderStatusPanel.tsx:88 | `filter(Boolean)` keeps exactly the non-empty strings, and never adds any |
| JsText.NonEmptyPartsConcat | components/emergencyLeakService/OrderStatusPanel.tsx:88 | `filter(Boolean)` distributes over concatenation, so with `NonEmptyPartsOne` it keeps the non-empty strings in order and with their repetitions |
| JsText.NonEmptyPartsOne | components/emergencyLeakService/OrderStatusPanel.tsx:88 | a single string is kept exactly when it is non-empty |
| JsText.JoinNonEmptyPair | components/emergencyLeakService/OrderStatusPanel.tsx:88 | joining the non-empty members of a pair gives both around the separator, the one non-empty member, or the empty string |
| JsText.NatToString | components/emergencyLeakService/OrderStatusPanel.tsx:321 | `${n}` is a non-empty run of decimal digits, one digit long exactly when `n < 10` |
| JsText.NatToStringInjective | components/emergencyLeakService/OrderStatusPanel.tsx:321 | distinct numbers render as distinct strings |
| JsText.IntToString | components/emergencyLeakService/OrderStatusPanel.tsx:101 | `String(n)` of an integer is never empty, and starts with `-` exactly when `n` is negative |
| IntakeValidation.IsEmail | helpers/emergencyLeakServiceForm.ts:31-33 | a value that passes `isEmail` has an `@` in its trimmed form, which is at least five characters long |
| IntakeValidation.IsPhone | helpers/emergencyLeakServiceForm.ts:35-37 | a value that passes `isPhone` is at least ten characters long and not blank |
| IntakeValidation.IsEmailMatchesPattern | helpers/emergencyLeakServiceForm.ts:31-33 | `isEmail(v)` holds exactly when `trim(v)` splits as a non-empty `[^\s@]` run, `@`, a non-empty run, `.`, and a non-empty run |
| IntakeValidation.EmailShapeMatchesPattern | helpers/emergencyLeakServiceForm.ts:32 | the three-part test (a prefix free of `@` and whitespace, a single `@`, then a free remainder with an inner `.`) is equivalent to the pattern |
| IntakeValidation.IndexOf | helpers/emergencyLeakServiceForm.ts:32 | returns the position of the first `@`, or the length when there is none |
| IntakeValidation.PhoneCharsSurviveTrim | helpers/emergencyLeakServiceForm.ts:35-37 | `isPhone(v)` holds exactly when `trim(v)` has at least ten characters and every character of `v` is a digit, `+`, `(`, `)`, `-` or whitespace |
| IntakeValidation.EmailIsNeverPhone | helpers/emergencyLeakServiceForm.ts:31-37 | no value passes both `isEmail` and `isPhone` |
| IntakeValidation.PredicatesIgnoreSurroundingWhitespace | helpers/emergencyLeakServiceForm.ts:31-37 | `isEmail` and `isPhone` give the same verdict on a value and on its trimmed form |
| IntakeValidation.ErrorMessage | helpers/emergencyLeakServiceForm.ts:45-89 | each of the fifteen checked fields has a non-empty message; the three unchecked keys have none |
| IntakeValidation.CheckFails | helpers/emergencyLeakServiceForm.ts:45-89 | the check never fails for the three unchecked keys, and always fails for a blank checked field, whether it is required, a phone or an e-mail field |
| IntakeValidation.ErrorsOfSnoc | helpers/emergencyLeakServiceForm.ts:45-89 | one more check records its message under its field when it fails and changes nothing when it passes |
| IntakeValidation.Validate | helpers/emergencyLeakServiceForm.ts:39-92 | the fifteen checks, made in source order, produce exactly the failing checks mapped to their messages |
| IntakeValidation.ErrorsAreFailingChecks | helpers/emergencyLeakServiceForm.ts:39-92 | a key is in the result exactly when it is one of the fifteen checked fields and its check fails; its message is that field's fixed message |
| IntakeValidation.ErrorsByKind | helpers/emergencyLeakServiceForm.ts:45-89 | a required field errs exactly when its trimmed value is empty; the phone fields exactly when `isPhone` fails; the e-mail fields exactly when `isEmail` fails |
| IntakeValidation.NoErrorsIffAllChecksPass | helpers/emergencyLeakServiceForm.ts:39-92 | the result is empty exactly when every one of the fifteen checks passes |
| IntakeValidation.OnlyFirstPropertyInspected | helpers/emergencyLeakServiceForm.ts:43 | replacing the properties after the first never changes the result |
| IntakeValidation.InitialFormFlagsEveryField | helpers/emergencyLeakServiceForm.ts:7-29 | the initial form has one empty property and `"Phone"` as the contact method, and validating it flags exactly the fifteen checked fields |
| IntakeForm.SetFormField | components/EmergencyLeakServiceForm.tsx:46-51 | `updateField` sets the named field to the value and leaves every other field, and the properties, unchanged |
| IntakeForm.SetPropertyText | components/EmergencyLeakServiceForm.tsx:59 | the spread over a property sets the named key and keeps the others |
| IntakeForm.SetPropertyField | components/EmergencyLeakServiceForm.tsx:53-61 | `updatePropertyField` leaves exactly one property: the old first one with the key set; the form's other fields are unchanged |
| IntakeForm.SetFormFieldOverwrites | components/EmergencyLeakServiceForm.tsx:50 | the second of two edits to the same field wins |
| IntakeForm.SetFormFieldsCommute | components/EmergencyLeakServiceForm.tsx:50 | edits to different fields commute |
| IntakeForm.EditChangesOnlyItsOwnError | components/EmergencyLeakServiceForm.tsx:46-51 | after `updateField(f, v)`, every key other than `f` is reported by the validator exactly as before |
| IntakeForm.PropertyEditChangesOnlyItsOwnError | components/EmergencyLeakServiceForm.tsx:53-61 | after `updatePropertyField(f, v)`, every key other than `f` is reported by the validator exactly as before |
| IntakeForm.MergeProperty | components/EmergencyLeakServiceForm.tsx:72-75 | each key of the merged property is the prefill key when present, else the current one |
| IntakeForm.ApplyPrefillData | components/EmergencyLeakServiceForm.tsx:63-81 | each present key overrides and each absent key keeps its value; a missing list keeps the properties; an empty list empties them; a non-empty list gives exactly the current first property merged with the data's first |
| IntakeForm.EmptyPrefillChangesNothing | components/EmergencyLeakServiceForm.tsx:65-68 | data with no keys leaves the form unchanged |
| IntakeForm.ApplyPrefillIdempotent | components/EmergencyLeakServiceForm.tsx:63-81 | applying the same prefill data twice is applying it once |
| IntakeForm.LookupKey | components/EmergencyLeakServiceForm.tsx:113 | the key is company name, `::`, e-mail, with the separator at the company name's length |
| IntakeForm.PrefillSchedule | components/EmergencyLeakServiceForm.tsx:105-121 | nothing is scheduled exactly when both trimmed values are empty or their key is the last key; otherwise the trimmed values and their key are scheduled |
| IntakeForm.NoRepeatLookup | components/EmergencyLeakServiceForm.tsx:114-119 | once a key has been recorded, the same values never schedule a lookup again |
| IntakeForm.DistinctValuesCanShareKey | components/EmergencyLeakServiceForm.tsx:113 | for every company name `a` and e-mail `b`, the different pairs (`a::`, `b`) and (`a`, `::b`) join to the same key |
| IntakeForm.CollidingKeySuppressesLookup | components/EmergencyLeakServiceForm.tsx:113-116 | after a lookup of (`a::`, `b`), the values (`a`, `::b`) schedule no lookup, for every `a` and `::b` that trimming leaves unchanged |
| IntakeForm.ScheduleIgnoresSurroundingWhitespace | components/EmergencyLeakServiceForm.tsx:106-107 | surrounding whitespace never changes what is scheduled |
| IntakeForm.ResetKeySuppressesNothing | components/EmergencyLeakServiceForm.tsx:155 | after the key is reset to `""`, any non-blank values are looked up again |
| IntakeForm.IntakeFormComponent.constructor | components/EmergencyLeakServiceForm.tsx:33-39 | the initial state: the initial form, no errors, not submitting, idle, empty last key, nothing scheduled |
| IntakeForm.IntakeFormComponent.UpdateField | components/EmergencyLeakServiceForm.tsx:46-51 | the form becomes the updated record; nothing else changes |
| IntakeForm.IntakeFormComponent.UpdatePropertyField | components/EmergencyLeakServiceForm.tsx:53-61 | the form becomes the record with the edited single property; nothing else changes |
| IntakeForm.IntakeFormComponent.CommitRender | components/EmergencyLeakServiceForm.tsx:105-124 | when company name or e-mail changed, the waiting lookup is cancelled and rescheduled; otherwise it is kept |
| IntakeForm.IntakeFormComponent.FirePrefillTimer | components/EmergencyLeakServiceForm.tsx:118-121 | the waiting key becomes the last key before its trimmed values are handed to the lookup |
| IntakeForm.IntakeFormComponent.CompletePrefill | components/EmergencyLeakServiceForm.tsx:83-103 | the data is applied only for an ok response that was found and carries data; any other outcome, a throw included, leaves the form unchanged |
| IntakeForm.IntakeFormComponent.Submit | components/EmergencyLeakServiceForm.tsx:126-137 | the status goes to idle and the validator's result becomes the errors; a non-empty result sends nothing and leaves `isSubmitting` alone; an empty one sets `isSubmitting` and sends the form |
| IntakeForm.IntakeFormComponent.CompleteSubmit | components/EmergencyLeakServiceForm.tsx:139-160 | an ok response gives success, the initial form, no errors and an empty last key; a failed response or a throw gives error; `isSubmitting` ends false |
| IntakeHeader.NextLookupMode | components/emergencyLeakService/IntakeHeader.tsx:38-46 | after a value change the mode is e-mail exactly when the new value contains `@` |
| IntakeHeader.NextModeForgetsPreviousMode | components/emergencyLeakService/IntakeHeader.tsx:41-45 | the new mode does not depend on the previous one |
| IntakeHeader.LookupDispatch | components/emergencyLeakService/IntakeHeader.tsx:48-55 | no callback when the trimmed value is empty or a lookup runs; otherwise exactly the callback of the current mode |
| IntakeHeader.LookupButtonDisabled | components/emergencyLeakService/IntakeHeader.tsx:121 | the button is disabled exactly when a lookup runs or the value trims to nothing |
| IntakeHeader.ButtonDisabledIffNoOp | components/emergencyLeakService/IntakeHeader.tsx:121 | the lookup button is disabled exactly when `handleLookup` would call nothing |
| IntakeHeader.IntakeHeaderComponent.constructor | components/emergencyLeakService/IntakeHeader.tsx:28-30 | the initial mode is service order |
| IntakeHeader.IntakeHeaderComponent.HandleLookupValueChange | components/emergencyLeakService/IntakeHeader.tsx:38-46 | the value is forwarded unchanged, and the mode becomes e-mail exactly when it contains `@` |
| IntakeHeader.IntakeHeaderComponent.HandleLookup | components/emergencyLeakService/IntakeHeader.tsx:48-55 | calls what `LookupDispatch` says for the current mode |
| IntakeHeader.IntakeHeaderComponent.HandleKeyDown | components/emergencyLeakService/IntakeHeader.tsx:57-62 | only Enter cancels the default action and runs the lookup; any other key does nothing |
| OrderStatusPanel.StatusLabel | components/emergencyLeakService/OrderStatusPanel.tsx:16-68 | a known status shows its table label, which differs from the raw status; an unknown one shows the raw status |
| OrderStatusPanel.StatusColor | components/emergencyLeakService/OrderStatusPanel.tsx:23-66 | a known status gets its colour classes; an unknown one gets the slate fallback |
| OrderStatusPanel.KnownStatusLabelsDistinct | components/emergencyLeakService/OrderStatusPanel.tsx:16-21 | distinct known statuses show distinct labels |
| OrderStatusPanel.LocationValue | components/emergencyLeakService/OrderStatusPanel.tsx:101 | the table label when there is one, else `String(n)`; never empty |
| OrderStatusPanel.RoofPitchValue | components/emergencyLeakService/OrderStatusPanel.tsx:113 | the table label when there is one, else `String(n)`; never empty |
| OrderStatusPanel.LeakNearValue | components/emergencyLeakService/OrderStatusPanel.tsx:107-108 | the free text when non-empty, else the table label, else `String(n)`; never empty |
| OrderStatusPanel.AccessCodeValue | components/emergencyLeakService/OrderStatusPanel.tsx:117 | `"None"` without an access code, the code when it is non-empty, `"Yes"` otherwise; never empty |
| OrderStatusPanel.YesNo | components/emergencyLeakService/OrderStatusPanel.tsx:121-129 | a flag renders as `"Yes"` exactly when set and `"No"` exactly when clear |
| OrderStatusPanel.AddressValue | components/emergencyLeakService/OrderStatusPanel.tsx:88-89 | the non-empty address parts joined by `", "`, then an em dash, the city and the zip code, in all four cases; never empty |
| OrderStatusPanel.Detail | components/emergencyLeakService/OrderStatusPanel.tsx:141-149 | renders nothing exactly when the value is empty, otherwise its label and value |
| OrderStatusPanel.Visible | components/emergencyLeakService/OrderStatusPanel.tsx:141-149 | a column shows exactly the candidate lines whose value is non-empty, every shown line has a value, and it never adds lines |
| OrderStatusPanel.VisibleConcat | components/emergencyLeakService/OrderStatusPanel.tsx:141-149 | a column renders piecewise: concatenated candidates render as the concatenated renderings, so with `VisibleOne` order and repetitions are kept |
| OrderStatusPanel.VisibleOne | components/emergencyLeakService/OrderStatusPanel.tsx:141-149 | one candidate renders as itself exactly when its value is non-empty, and as nothing otherwise |
| OrderStatusPanel.LeakCandidates | components/emergencyLeakService/OrderStatusPanel.tsx:84-135 | a leak card has sixteen candidate lines, of which the address, the three enumerated values, the access code and the three flags are never empty |
| OrderStatusPanel.LeakCardAlwaysShows | components/emergencyLeakService/OrderStatusPanel.tsx:85-130 | every leak card shows the address, location, leak-near, roof pitch, access code and the three flags |
| OrderStatusPanel.CardTitle | components/emergencyLeakService/OrderStatusPanel.tsx:321 | the title starts with `P` exactly for the primary card; any other card's title ends with its number |
| OrderStatusPanel.CardTitlesDistinct | components/emergencyLeakService/OrderStatusPanel.tsx:316-322 | the card titles "Primary Leak", "Additional Leak 1", … are pairwise distinct |
| OrderStatusPanel.LeakCards | components/emergencyLeakService/OrderStatusPanel.tsx:316-322 | the primary leak card comes first, then additional leak `i` titled "Additional Leak i+1", in input order |
| OrderStatusPanel.LeakCardTitlesDistinct | components/emergencyLeakService/OrderStatusPanel.tsx:316-322 | no two cards of an order carry the same title |
| OrderStatusPanel.ContactLines | components/emergencyLeakService/OrderStatusPanel.tsx:286-293 | the contact column has at most four lines, none empty, and shows each of account, contact, e-mail and phone exactly when it is non-empty |
| OrderStatusPanel.BillingLines | components/emergencyLeakService/OrderStatusPanel.tsx:299-309 | the billing column always shows the address line, and shows the bill-to name and the e-mail exactly when they are non-empty |
| OrderStatusPanel.Actions | components/emergencyLeakService/OrderStatusPanel.tsx:210-343 | the loading screen offers no button; the error and status screens offer a fetch again and a dismiss |
| OrderStatusPanel.ErrorText | components/emergencyLeakService/OrderStatusPanel.tsx:169 | an `Error` keeps its message; any other thrown value gives "Failed to check status." |
| OrderStatusPanel.OrderStatusPanelComponent.constructor | components/emergencyLeakService/OrderStatusPanel.tsx:155-159 | nothing fetched, no error, and the loading screen up |
| OrderStatusPanel.OrderStatusPanelComponent.View | components/emergencyLeakService/OrderStatusPanel.tsx:180-326 | loading exactly while loading; then the error screen exactly when the error is non-empty; otherwise the status view with the message, the badge exactly when the status is truthy, and the details exactly when there is data |
| OrderStatusPanel.OrderStatusPanelComponent.FetchStatus | components/emergencyLeakService/OrderStatusPanel.tsx:161-173 | a result replaces status, data and message and clears the error; a throw keeps them and records the error text; loading ends either way; a result always leads to the status view |
| PrefillRoute.Names | app/api/emergency-leak-service/prefill/route.ts:9 | `body.field?.trim()` is truthy exactly when the field is present and not blank |
| PrefillRoute.HasLookup | app/api/emergency-leak-service/prefill/route.ts:9 | the request has a lookup exactly when the company name or the e-mail is present and not blank |
| PrefillRoute.Post | app/api/emergency-leak-service/prefill/route.ts:7-26 | status 400 exactly when neither trimmed field is non-empty, with its message; otherwise 200 with the stub message; `found` is false on every path |
| PrefillRoute.BlankCountsAsMissing | app/api/emergency-leak-service/prefill/route.ts:9 | a whitespace-only field is treated exactly like a missing one |
| PrefillRoute.BadRequestIffBothBlank | app/api/emergency-leak-service/prefill/route.ts:9-17 | with both fields sent, the answer is 400 exactly when both are blank |

## Left out

- I/O, `async`/`await` and React rendering are not modelled. Every `fetch` and its `response.json()` is an outcome parameter.
  - `IntakeFormComponent.CompletePrefill` and `CompleteSubmit` take their outcome this way.
  - So does `OrderStatusPanelComponent.FetchStatus`.
- Debounce timing is not modelled. The 500 ms `setTimeout` and its `clearTimeout` cleanup become a scheduled lookup and two events: `FirePrefillTimer` and the cancellation inside `CommitRender`.
- `formatDate` is not modelled; it is locale-dependent `Date` formatting. The status view holds the ISO strings passed to it.
- Layout class names other than the status badge's colours, the spinner, focus handling and the mount-time `useEffect` that triggers the first fetch are not modelled.
- `getServiceOrderStatus` and the other network helpers are not part of this model. The panel receives their result as a `FetchOutcome`.
- The regular-expression engine is not modelled. `isEmail` and `isPhone` are character-class predicates, and `IsEmailMatchesPattern` ties `isEmail` to the pattern's meaning.
- Whitespace is the ECMAScript WhiteSpace and LineTerminator set, as used by `trim` and `\s`.
- `IntakeValidation.Validate`: the validator's fifteen literal `if` statements are modelled as one loop over the fifteen checks in source order. Each check has the same condition, key and message as its `if`. The result is identical, but the model does not mirror the statements one by one.
- `IntakeValidation.Validate`: it requires a first leaking property. The source reads `leakingProperties[0]` and throws a `TypeError` on an empty list. `IntakeFormComponent.Submit` models that case as the early exit after the idle reset.
- `IntakeForm.SetPropertyField` and `IntakeFormComponent.UpdatePropertyField` require a first property. On an empty list the source builds a property from a single key, which the record type cannot hold.
- `IntakeForm.ApplyPrefillData` and `IntakeFormComponent.CompletePrefill` require a current first property when the data brings a non-empty property list. Otherwise the source builds a property that may lack keys.
- `IntakeForm.SetFormField` covers the ten string-valued form keys. `updateField("leakingProperties", …)` is never called by the form and is not modelled.
- Prefill data is a `Partial` record whose keys are present or absent. Explicit `null` values and keys outside the record are not modelled.
- The label tables are looked up only with their own keys (status strings and integers). Prototype keys such as `toString` and non-integer numbers are not modelled.
- `OrderStatusPanel.LeakDetails`: leak location, leak-near and roof pitch are integers, matching the panel's number-keyed tables. The type declarations give `LeakDetailsPayload.LeakLocation` as a name string; the declaration of `ServiceOrderStatusData` is not part of this model.
- Every text field of the status record is a string. `undefined` or `null` values are not modelled.
- `PrefillRoute.Post`: a request body that is not valid JSON makes `request.json()` throw. A JSON body of `null`, or a field that is present but not a string (a number, say), makes `body.companyName?.trim()` in app/api/emergency-leak-service/prefill/route.ts:9 throw a `TypeError`. These cases are not modelled: `PrefillRequest` holds only absent or string fields.
- The other route stubs, the presentational form sections and the pages only pass props or return canned JSON. They are not modelled.
