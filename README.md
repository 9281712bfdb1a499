# Asgard trade form: a Dafny model

This project models the client-side logic of the Asgard mini-app's trade
form (`app.js`). It covers five pieces:

- **Number parsing.** `parseNum` swaps the first comma for a dot and then
  reads a decimal prefix the way `parseFloat` does.
- **Live preview.** `updatePreview` computes the position size, the PnL and
  the ROI for a Long or Short trade, and picks the sign and the CSS classes.
- **Validation.** `collectPayload` marks every failing field in one pass
  and builds the trade payload.
- **Submission.** The submit button's single-flight guard `isSubmitting`
  works with the two delivery channels: the chat bridge's `sendData`, or a
  POST to `/api/generate`.
- **Timers.** The 5000 ms timer clears the guard, and the 1500 ms timer
  closes the view after a successful POST.

Modules, one file each:

- `Wrappers` (`wrappers.dfy`): `Option`.
- `Text` (`text.dfy`): ECMAScript `trim` white space and ASCII upper-casing.
- `NumberParser` (`number_parser.dfy`): `parseNum`. NaN becomes `None`, and
  values are exact reals.
- `Calculator` (`calculator.dfy`): the preview, as pure functions.
- `Form` (`form.dfy`): two parts.
  - The specification functions `Read`, `FailedFields` and `Validated`.
  - The imperative `CollectPayload`: a step-by-step `valid` flag and a loop
    that pushes the checked template values.
- `Submission` (`submission.dfy`): two parts.
  - The page state as a `Session` value, one step function per event, the
    invariant `Inv`, and lemmas over single events and whole traces.
  - The class `MiniApp`, whose fields the handlers update in place. Each of
    its methods is proved to produce exactly `State() == After…(old(State()), …)`.

Events come from outside the model: a click, the settling of the POST
(`Reply`), the firing of either timer, and a toggle click. Whether
`sendData` throws is a parameter of the click.

Consequences of the code that the model keeps:

- A failed send re-enables the button but does not clear `isSubmitting`.
  Only the 5000 ms timer clears it.
- The timer does not re-enable the button. A POST that never settles
  therefore leaves the button disabled for good
  (`HungRequestKeepsButtonDisabled`).
- A reply that arrives after the timer fired still updates the button.
- With no bridge, no `sendData` or no user id, the button is left as it was.
- An attribute `data-api-base=""` still selects HTTP mode, with an empty
  base URL.

A click on a disabled button is never dispatched by the browser. The click
step therefore ignores it, as it ignores a click while `isSubmitting`.

## Model

| member | source | states |
|---|---|---|
| Text.LeadingSpace | app.js:154 | the white space run that `trim` removes at the front: bounded by the string, all white space, followed by a non-space or the end |
| Text.TrailingSpaceStart | app.js:154 | the same for the white space `trim` removes at the back |
| Text.ToUpper | app.js:154 | `toUpperCase`: the same length, each character mapped to its upper case |
| Text.UpperChar | app.js:154 | ASCII `a`-`z` map to `A`-`Z`; every other character is unchanged |
| Text.TrimEmptyIff | app.js:154-155 | trimming leaves the empty string exactly when the input is all white space |
| Text.TrimmedEnds | app.js:154 | a non-empty trimmed string starts and ends with a non-space |
| Text.Trim | app.js:154 | `trim`: cuts the white space runs that `LeadingSpace` and `TrailingSpaceStart` pin down; its properties are `TrimEmptyIff` and `TrimmedEnds` |
| NumberParser.ReplaceFirstComma | app.js:116 | `replace(',', '.')` keeps the length |
| NumberParser.ReplaceFirstCommaSpec | app.js:116 | with no comma the text is unchanged; otherwise only the first comma becomes `.` and everything else is kept |
| NumberParser.ReplaceAfterComma | app.js:116 | if `a` has no comma, `a + "," + b` becomes `a + "." + b` whatever commas `b` holds |
| NumberParser.ReplaceSkipsPrefix | app.js:116 | a comma-free prefix is left as it is and the replacement acts on the rest |
| NumberParser.ReplaceKeepsNumberEnd | app.js:116 | a tail that cannot continue a number (empty, or not starting with a digit or `e`/`E`) still cannot after the comma swap |
| NumberParser.DigitRun | app.js:116 | the longest run of digits at the start: all digits, followed by a non-digit or the end |
| NumberParser.DigitRunOfPrefix | app.js:116 | the digit run of digits followed by a non-digit is exactly those digits |
| NumberParser.DigitsHaveNoComma | app.js:116 | digit strings hold no comma, so the swap passes over them |
| NumberParser.FractionDigits | app.js:116 | the digits read after the decimal point are all digits |
| NumberParser.NoLeadingSpace | app.js:116 | a string that starts with a non-space is not changed by skipping leading white space |
| NumberParser.ParseUnsignedDecimal | app.js:116 | `ip.fp` followed by a tail that cannot continue a number reads as the decimal `ip.fp`, and the tail is ignored |
| NumberParser.ParseUnsignedInteger | app.js:116 | a digit string reads as its natural number |
| NumberParser.ParseFloatDecimal | app.js:116 | `parseFloat` of `ip.fp` plus a tail that cannot continue a number is the decimal `ip.fp` |
| NumberParser.ParseFloat | app.js:116 | the simplified `parseFloat`; its properties are `NoLeadingSpace`, `ParseFloatMinus` and `ParseFloatDecimal` |
| NumberParser.ParseNum | app.js:116 | the empty string is NaN |
| NumberParser.ParseNumSeparators | app.js:116 | `ip,fp` and `ip.fp`, followed by a tail that cannot continue a number, both parse to the decimal `ip.fp` |
| NumberParser.ParseNumNoComma | app.js:116 | text without a comma is passed to `parseFloat` unchanged |
| NumberParser.ParseFloatMinus | app.js:116 | a leading `-` negates the unsigned number that follows |
| NumberParser.ParseNumNegative | app.js:116 | `-digits` parses to the negated number, which is not positive |
| NumberParser.ParseNumNoDigits | app.js:116 | text that starts with no digit, sign, point, comma, space or `I` (of `Infinity`) is NaN |
| NumberParser.ParseNumInteger | app.js:116 | a digit string parses to its natural number |
| NumberParser.DecimalExamples | app.js:116 | `1.5` and `0.5` as decimals |
| NumberParser.ParseNumCommaExample | app.js:116 | `"1,5"` parses to 1.5 |
| NumberParser.IsFalsy | app.js:124 | JavaScript's `!x` on a number: true for NaN and 0; used by `Calculator.Compute` and `Form.MarkFailures` |
| NumberParser.IsPositive | app.js:161-163 | a number that is neither falsy nor `<= 0`, so the field is accepted; `Calculator.Compute` and `Form.FailedFields` state their results with it |
| NumberParser.ParseNumSecondCommaExample | app.js:116 | `"0,5,1"` parses to 0.5, because only the first comma is swapped |
| Calculator.Compute | app.js:124-142 | the preview is shown exactly when entry, exit and margin are all positive numbers (not NaN, zero or negative) |
| Calculator.UpdatePreview | app.js:118-126 | on raw field text: hidden exactly when one of the three parsed values is not positive |
| Calculator.ShownFigures | app.js:127-131 | size = margin × leverage; PnL = price move × margin × leverage; ROI = price move × leverage × 100; ROI × margin = PnL × 100 |
| Calculator.RoiIndependentOfMargin | app.js:127-131 | two margins give the same ROI |
| Calculator.ShortMirrorsLong | app.js:128-131 | Short has Long's size and exactly the negated PnL and ROI |
| Calculator.ProfitStyling | app.js:132-142 | PnL ≥ 0 gives "+" and class `preview-value profit` on PnL and ROI; a loss gives no sign and `preview-value loss`; the ROI's sign agrees with the PnL's; the size has no sign and only `preview-value` |
| Calculator.ProfitIffFavourableMove | app.js:128-133 | with leverage > 0 the PnL shows "+" exactly when the price did not move against the direction |
| Calculator.WorkedExample | app.js:127-141 | 100 → 110 with margin 10 at 5x: size 50, Long +5 USDT and +50 %, Short -5 USDT and -50 % |
| Calculator.ZeroHides | app.js:124-126 | a zero entry, exit or margin hides the preview |
| Form.NormalizeSymbol | app.js:154 | `trim().toUpperCase()`; its properties are `SymbolEmptyIff` and `SymbolShape` |
| Form.CheckedValues | app.js:165-168 | the checked values in page order; `CollectTemplates` computes it, and `CheckedValuesMembers`, `CheckedValuesEmptyIff` and `CheckedValuesAppend` state its properties |
| Form.Read | app.js:154-168 | what `collectPayload` reads: normalised symbol, the three parsed numbers, slider, checked values, balance text; `ExampleReadings` shows it on an example |
| Form.Validated | app.js:171-187 | null when a field fails, else the payload; its properties are `AcceptedIffNoFailure`, `ValidatedIff` and `PayloadFacts` |
| Form.AccountBalance | app.js:183-186 | the balance kept in the payload; `ReadBalance` computes it and `PayloadFacts` states when it is present |
| Form.FailedFields | app.js:155-169 | the marked fields are exactly those whose check fails |
| Form.CollectTemplates | app.js:165-168 | the loop collects exactly the values of the checked boxes, in page order |
| Form.MarkFailures | app.js:151-171 | starting with no marks, every check runs with no short-circuit; the marks are the failed fields, and `valid` holds exactly when there are none |
| Form.ReadBalance | app.js:183-186 | the balance is read only in Cross mode and kept only when it parses to a positive number |
| Form.CollectPayload | app.js:150-188 | marks exactly the failed fields of the form; returns null if one failed, otherwise the payload with `account_balance` only in Cross mode with a positive balance |
| Form.CheckedValuesAppend | app.js:165-168 | collecting from two runs of boxes is the concatenation of collecting from each |
| Form.CheckedValuesMembers | app.js:165-168 | a value is collected exactly when some checked box carries it |
| Form.CheckedValuesEmptyIff | app.js:169 | nothing is collected exactly when no box is checked |
| Form.UpperKeepsSpace | app.js:154 | upper-casing neither creates nor removes white space |
| Form.SymbolEmptyIff | app.js:154-155 | the symbol check fails exactly when the input is all white space |
| Form.AcceptedIffNoFailure | app.js:155-171 | a payload is returned exactly when the symbol is non-empty, the three numbers are positive and a template is selected |
| Form.ValidatedIff | app.js:154-171 | the same on the raw form: a non-space symbol character, three positive parsed numbers and a checked box |
| Form.SymbolShape | app.js:154 | a non-empty normalised symbol has no lower-case ASCII letter and no white space at either end |
| Form.PayloadFacts | app.js:173-186 | an accepted payload holds the trimmed upper-cased symbol, the positive parsed prices and margin, the checked values in order, and `account_balance` exactly in Cross mode with a positive parsed balance |
| Form.AllFailuresReported | app.js:151-171 | an empty symbol, a negative entry and no selected template are all marked in one call, and no payload is returned |
| Form.ExampleReadings | app.js:154-157 | a blank symbol normalises to the empty string, and `"-5"` parses to -5 |
| Submission.DetectMode | app.js:29-30 | HTTP mode exactly when `data-api-base` is present; the base URL is the attribute's value when present, and empty exactly when the attribute is absent or empty |
| Submission.Initial | app.js:74-76 | the state at page load; `InitialInv` shows it satisfies the invariant |
| Submission.HasUser | app.js:209-214 | the `!userId` test: a user id is present and non-zero; `MissingChannelLeavesButton` and `ValidFormSendsOnce` are stated with it |
| Submission.AfterTelegramSend | app.js:191-205 | `sendViaTelegram`; its outcomes are stated by `TelegramOutcomes` and `MissingChannelLeavesButton` |
| Submission.AfterApiSend | app.js:208-223 | `sendViaApi` up to the request; its outcomes are stated by `ValidFormSendsOnce` and `MissingChannelLeavesButton` |
| Submission.AfterClick | app.js:245-259 | the click handler; its outcomes are stated by `ClickGuard`, `InvalidFormSendsNothing` and `ValidFormSendsOnce` |
| Submission.AfterCollect | app.js:247-259 | the handler after `collectPayload`; stated by `CollectPreservesInv`, `CollectSendsAtMostOnce` and `HungRequestKeepsButtonDisabled` |
| Submission.AfterReply | app.js:224-239 | the `.then`/`.catch` handlers of the POST; stated by `ReplyOutcomes` |
| Submission.AfterResetTimer | app.js:259 | the 5000 ms timer; stated by `ResetTimerOnlyClearsFlag` and `OnlyResetTimerClearsFlag` |
| Submission.AfterCloseTimer | app.js:228 | the 1500 ms timer; `StepPreservesInv` shows it only fires after a successful POST |
| Submission.Step | app.js:92-259 | one event of the page; stated by `StepPreservesInv`, `OnlyClickTransmits`, `OnlyResetTimerClearsFlag` and `StepCredit` |
| Submission.Run | app.js:92-259 | a sequence of events; stated by `RunPreservesInv`, `SingleFlight` and `NoSecondSendBeforeReset` |
| Submission.Inv | app.js:216-259 | the invariant on timers, requests in flight and button state; kept by `StepPreservesInv` and `RunPreservesInv` |
| Submission.InitialInv | app.js:243 | the page starts in a state that satisfies the invariant |
| Submission.StepPreservesInv | app.js:191-260 | every event keeps the invariant: one reset timer exactly while `isSubmitting`; at most one POST in flight, only in HTTP mode, with the button disabled and showing "Генерирую..."; at most one close timer, armed only after a successful POST |
| Submission.CollectPreservesInv | app.js:247-259 | a submission started from an enabled button without the flag keeps the invariant |
| Submission.RunPreservesInv | app.js:191-260 | every sequence of events keeps the invariant |
| Submission.ClickGuard | app.js:246 | a click while `isSubmitting` (or on a disabled button) changes nothing |
| Submission.InvalidFormSendsNothing | app.js:247-248 | an invalid form only marks its (non-empty) failed fields: the flag stays clear, nothing is sent, no timer is armed |
| Submission.ValidFormSendsOnce | app.js:247-259 | a valid form sets the flag, clears the marks and arms one timer; it transmits at most once, and exactly the POST (HTTP mode with a user) or the `sendData` of the payload (bridge mode with `sendData`) |
| Submission.MissingChannelLeavesButton | app.js:192-214 | with no bridge or `sendData`, or no user id in HTTP mode, there is an alert and no transmission, the button is left as it was, and the flag is still set |
| Submission.TelegramOutcomes | app.js:196-204 | a `sendData` that returns leaves the button disabled as "Отправлено!"; one that throws shows an alert and re-enables it as "Сгенерировать"; the flag stays set either way |
| Submission.ReplyOutcomes | app.js:224-239 | `ok` keeps the button disabled, shows "Отправлено!" and arms the close timer; `ok: false` or a network failure shows an alert and re-enables the button as "Сгенерировать"; no reply transmits or touches the flag |
| Submission.OnlyResetTimerClearsFlag | app.js:259 | every event other than the 5000 ms timer leaves a set flag set |
| Submission.ResetTimerOnlyClearsFlag | app.js:259 | the timer clears the flag and its own count, and changes nothing else (the button is not re-enabled) |
| Submission.OnlyClickTransmits | app.js:245-257 | replies, timers and toggles never transmit |
| Submission.CollectSendsAtMostOnce | app.js:250-256 | a submission transmits nothing, or exactly once with the flag set |
| Submission.StepCredit | app.js:245-259 | one event adds at most one transmission, and only by using up the single credit that the timer restores |
| Submission.SingleFlight | app.js:245-259 | over any trace, transmissions plus remaining credit never exceed the initial count plus credit plus the number of timer firings |
| Submission.NoSecondSendBeforeReset | app.js:246-259 | while the timer does not fire, any events (repeated clicks included) transmit at most once, and not at all while a submission is pending |
| Submission.HungRequestKeepsButtonDisabled | app.js:216-259 | after a valid POST and the timer, the flag is clear but the button stays disabled as "Генерирую..." and every click is ignored |
| Submission.MiniApp.constructor | app.js:29-30 | the mode comes from `data-api-base`; the state starts as Long, Cross, not submitting, enabled, no marks |
| Submission.MiniApp.SetDirection | app.js:92 | a direction toggle produces exactly `Step` on `DirectionToggled`: only the direction changes |
| Submission.MiniApp.SetMarginMode | app.js:93-96 | a margin-mode toggle produces exactly `Step` on `MarginModeToggled`: only the margin mode changes |
| Submission.MiniApp.SendViaTelegram | app.js:191-205 | updates the fields exactly as `AfterTelegramSend` says |
| Submission.MiniApp.SendViaApi | app.js:208-223 | updates the fields exactly as `AfterApiSend` says, up to the request |
| Submission.MiniApp.Click | app.js:245-260 | the click handler produces exactly `AfterClick`, and keeps the invariant `Inv` |
| Submission.MiniApp.Submit | app.js:248-259 | the handler after `collectPayload` produces exactly `AfterCollect` |
| Submission.MiniApp.OnReply | app.js:224-239 | the reply handlers produce exactly `AfterReply`, and keep the invariant `Inv` |
| Submission.MiniApp.OnResetTimer | app.js:259 | the 5000 ms timer produces exactly `AfterResetTimer`, and keeps the invariant `Inv` |
| Submission.MiniApp.OnCloseTimer | app.js:228 | the 1500 ms timer produces exactly `AfterCloseTimer` (it calls `close` when the bridge has it), and keeps the invariant `Inv` |

## Left out

- DOM lookups, CSS class toggling, hint visibility, toggle styling and the slider label (app.js:33-113). These are UI plumbing. The model keeps only the set of marked fields and the button's `disabled` flag and text.
- Clearing one mark on input: typing into a field or changing a template box removes that field's mark (app.js:41-43, 69-72, 103). No event models this, so `Session.marked` is what the last `collectPayload` marked.
- Floating point: values are exact reals. `toFixed(2)` rounding of the preview text is not modelled; a `Figure` holds the unrounded value.
- NumberParser.ParseNum: the `parseFloat` model reads white space, a sign, digits and an optional `.` fraction. Exponents and `Infinity` are not modelled, so inputs such as `"1e3"` parse to their digit prefix only.
- Text.ToUpper: only ASCII letters are upper-cased; upper-casing outside ASCII (Cyrillic, `ß`) is not modelled.
- Text.UpperChar: maps `a`-`z` to `A`-`Z` and keeps every other character, so it differs from `toUpperCase` on non-ASCII letters (Cyrillic `а` stays `а`); the Unicode case tables are not modelled.
- `parseInt(leverageSlider.value, 10)`: the slider value is taken as an integer already.
- The network call, JSON encoding and decoding, and the chat bridge SDK (`expand`, `ready`, `sendData`, `showAlert`, `close`). These are foreign I/O. A transmission is recorded as a `Transmission` value. The POST's settling is a `Reply` event. A throwing `sendData` is a parameter of the click.
- Real timers: the 5000 ms and 1500 ms `setTimeout` calls are counted as armed timers, and their firing is an event.
- `window.onerror` (app.js:12) and the wording of the alert messages. Only which alert fires is recorded.
- The initial text of the submit button comes from the page markup, which is not part of this model. It is a constructor parameter.
- The preview is a pure function of the field text, the slider and the direction. `MiniApp` does not store it; `Calculator.UpdatePreview` gives it for the current inputs.
