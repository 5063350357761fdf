# Elina tracker: history display rules, settings guards and report dispatch

A Dafny model of the decision logic of a small fluid-intake tracker for a
child: the rules the 7-day history page applies to each day's summary, the
settings page's form handling and validation, and the scheduler that turns
configured report times into daily cron triggers and sends each report to
every authorized recipient. Nothing in the model touches the DOM, the
network, the database or the clock: the outcomes of those calls are
parameters.

- `options.dfy`: `Option`, where `None` stands for `null`, `undefined` and `NaN`.
- `js_text.dfy` (module `JsText`): the JavaScript string primitives the
  core relies on: `trim`, `split` on one character, `parseInt(s, 10)` and
  the decimal rendering of an integer, with their round trips.
- `history.dfy` (module `History`): the intake colour tier, bar width,
  fluid chips, empty-day collapse, gag and output sections, wellness cells
  and trend arrows, and the pairing of each day card with the older day.
  All of it is pure functions over the day records.
- `settings.dfy` (module `Settings`): the guards a save must pass, the
  payload assembled from the form, and the class `SettingsPage`. Its fields
  are the form, the unit radios, the header, the save button and the status
  line. Its methods load and save settings and update the status.
- `scheduler.dfy` (module `Scheduler`): the authorized-id list, the
  `HH:MM` to cron conversion with its per-trigger default, the two
  triggers, and `SendScheduledReport`, a loop that sends one text to each
  recipient in turn.

`parseInt(s, 10)` is modelled as JavaScript defines it. It skips leading
white space, reads an optional sign, then reads the longest run of decimal
digits. If there are no digits the result is `None` (NaN). So `"150ml"`
reads as 150, and a time without a colon has a NaN minute.

The intake colour uses the fixed percentages 90 (red) and 70 (yellow), as
public/history.js:170-174 does. The history page never consults
`warn_threshold_yellow` and `warn_threshold_red`, although the settings
page lets the user set and validate them (public/settings.js:130-144). The
model follows the code.

Form fields follow two rules of the browser's form model. A select keeps an
assigned value only when one of its options has that value; otherwise it
selects nothing and reads as empty. Checking one radio button unchecks the
others of its group, so after loading only the last `units` radio with the
loaded value stays checked.

## Model

| member | source | states |
|---|---|---|
| `History.IntakeTier` | public/history.js:167-174 | the bar is `over` exactly when total exceeds the limit; otherwise red exactly at 90 % or more, yellow exactly from 70 % up to 90 %, no colour below 70 %: the four are exclusive and cover every input |
| `History.OverIgnoresPercent` | public/history.js:167-169 | over the limit the colour is `over` for every percentage |
| `History.TierMonotone` | public/history.js:170-174 | within the limit a higher percentage never gives a milder colour |
| `History.BarWidth` | public/history.js:164 | the bar width never exceeds 100 and equals the percentage when that is at most 100 |
| `History.Chips` | public/history.js:177-180 | the chips are exactly the `byType` entries with a positive amount, never more than the entries |
| `History.ChipsAppend` | public/history.js:177-178 | the chips keep entry order: chips of a concatenation are the chips of each part in turn |
| `History.IntakeSection` | public/history.js:161-180 | the numbers are shown as sent; the bar width is `BarWidth` of the percentage: the percentage up to 100, exactly 100 above it; the colour is the intake tier (`over` exactly over the limit, else red from 90 %, yellow from 70 %); the chips are exactly the positive entries in entry order |
| `History.GagSection` | public/history.js:205-207 | the count is shown exactly when it is positive |
| `History.OutputsSection` | public/history.js:221-233 | one row per output in order, with its time and type; the amount shows exactly when present and non-zero |
| `History.TrendOf` | public/history.js:260-269 | up exactly when current > previous, down exactly when <, flat exactly when equal, and no arrow exactly when either value is missing |
| `History.TrendSwap` | public/history.js:266-268 | swapping current and previous swaps up and down and keeps flat and no-arrow |
| `History.ValCell` | public/history.js:271-277 | a cell is a dash exactly when the check or the score is missing (0 shows as 0); a shown value is the score; without `showTrend` no arrow |
| `History.WellnessSection` | public/history.js:249-255 | "no wellness check logged" exactly when both slots are empty, otherwise a table of four rows |
| `History.WellnessCells` | public/history.js:279-292 | per row: dashes as above; afternoon never has an arrow; evening has one only for energy and cyanosis, comparing with the previous evening |
| `History.DayCard` | public/history.js:123-152 | a card collapses exactly when the day is not today and has no intake above zero, no output, no gag and no check; a full card carries the day's label and today flag, and its intake, gag, output and wellness sections built from that day, the wellness against the previous (older) day's |
| `History.NeverCollapsed` | public/history.js:131-143 | today is never collapsed; nor is a day with a gag, whose card then shows its gag count |
| `History.RenderHistory` | public/history.js:93-102 | no days gives "no history"; otherwise one card per day, in order, each built with the next (older) day as previous |
| `History.TrendAgainstOlderDay` | public/history.js:98-100 | a card's evening arrow compares that day's evening score with the next-older day's; the oldest day never has an arrow |
| `History.HasAnyData` | public/history.js:123-129 | no contract; characterised by `DayCard` and `NeverCollapsed` |
| `History.Older` | public/history.js:99 | no contract; characterised by `RenderHistory` and `TrendAgainstOlderDay` |
| `JsText.Trim` | public/settings.js:111 | no contract; characterised by `TrimPadded` and `TrimIdempotent` |
| `JsText.TrimPadded` | scheduler.js:22 | `trim` removes exactly the white space around the text: a padded string trims back to its core |
| `JsText.TrimIdempotent` | public/settings.js:111 | trimming twice is trimming once |
| `JsText.Split` | scheduler.js:21 | `split` gives at least one piece, and no piece contains the separator |
| `JsText.JoinSplit` | scheduler.js:75 | joining the pieces of a split gives the string back |
| `JsText.SplitJoin` | scheduler.js:21 | splitting a join of separator-free pieces gives the pieces back |
| `JsText.ParseInt` | scheduler.js:76-77 | no contract; characterised by the `ParseInt…` lemmas below |
| `JsText.ParseIntString` | scheduler.js:79 | `parseInt` reads back the rendering of any integer, whatever non-digit text follows |
| `JsText.ParseIntZeroPadded` | scheduler.js:76-77 | a zero-padded field such as `07` reads as its value |
| `JsText.ParseIntSkipsSpace` | scheduler.js:76 | leading white space never changes what `parseInt` reads |
| `JsText.ParseIntNoDigit` | public/settings.js:122-123 | text without a digit reads as NaN |
| `JsText.ParseIntIgnoresUnit` | public/settings.js:122 | `"150ml"` reads as 150 |
| `Settings.FirstChecked` | public/settings.js:116 | the selected unit is the first checked radio in document order, and none is found only when none is checked |
| `Settings.Payload` | public/settings.js:107-119 | the payload holds exactly the listed fields present on the page, each trimmed, plus `units` exactly when a radio is checked, with that radio's value |
| `Settings.Validate` | public/settings.js:122-144 | no contract; characterised by `ValidateChecksInOrder` |
| `Settings.ValidateChecksInOrder` | public/settings.js:122-144 | a payload passes exactly when 100 ≤ limit ≤ 5000 and 10 ≤ yellow < red ≤ 100; otherwise the reported guard is the first that fails: limit, then threshold ranges, then order |
| `Settings.PostEffect` | public/settings.js:146-165 | no contract; what `Post` must produce: the outcome message shown, and on success a non-empty echoed child name in the header |
| `Settings.SaveEffect` | public/settings.js:121-165 | no contract; characterised by `SaveGuarded`, and the state `SaveSettings` must leave |
| `Settings.SaveGuarded` | public/settings.js:121-150 | a save posts only a payload that passes every guard, and what it posts satisfies the configuration invariant; a rejected save shows that guard's message |
| `Settings.Assigned` | public/settings.js:77-82 | an assigned value is kept or becomes empty; a select keeps it exactly when one of its options has it |
| `Settings.Populated` | public/settings.js:70-84 | loading keeps the set of fields and their kinds; a listed text field with a non-null setting takes its text; a select takes it when it is one of its options and reads empty otherwise; radio fields, unlisted fields and null or missing settings leave the field unchanged |
| `Settings.UnitsValue` | public/settings.js:87 | `ml` when the setting is absent, null or empty; otherwise the setting itself; never empty |
| `Settings.SetChecked` | public/settings.js:89 | setting `checked` on one radio: checking it unchecks every other radio of the group, unchecking it leaves the others alone; values are unchanged |
| `Settings.SelectUnits` | public/settings.js:88-89 | after loading, a radio is checked exactly when its value is the unit and no later radio has it; at most one radio is checked; values are unchanged |
| `Settings.SelectUnitsChecksOne` | public/settings.js:88-89 | when some radio has the unit's value, a radio ends up checked, and the first checked one has that value |
| `Settings.LoadedFieldSavedBack` | public/settings.js:70-84 | a text field, or a select with the setting among its options, filled from a setting is posted back, trimmed, by the next save |
| `Settings.UnknownOptionPostedEmpty` | public/settings.js:77-78 | a select with no option for the loaded value posts an empty value on the next save |
| `Settings.LoadedUnitsSavedBack` | public/settings.js:86-89 | when a radio for the loaded unit exists, the next save posts that unit |
| `Settings.NullSettingSkipped` | public/settings.js:71-72 | a null or missing setting leaves its field unchanged |
| `Settings.SettingsPage.ShowStatus` | public/settings.js:178-182 | the status line takes the message and type when the page has one |
| `Settings.SettingsPage.BuildPayload` | public/settings.js:107-119 | the loop builds exactly `Payload` of the current form |
| `Settings.SettingsPage.FillFields` | public/settings.js:70-84 | the field loop leaves the form as `Populated` describes |
| `Settings.SettingsPage.CheckUnits` | public/settings.js:87-89 | the radio loop, run with the group rule of `SetChecked` at each step, leaves the radios as `SelectUnits` describes |
| `Settings.SettingsPage.LoadSettings` | public/settings.js:57-95 | on success: header, fields and radios updated as above and the status kept; on failure only the status changes, to the load error |
| `Settings.SettingsPage.Post` | public/settings.js:146-165 | after the request, what is posted, the status and the header are as `PostEffect` says |
| `Settings.SettingsPage.SaveSettings` | public/settings.js:101-172 | on every exit the button is enabled with its label restored; what is posted, the status and the header are as `SaveEffect` of the form's payload says |
| `Scheduler.Entries` | scheduler.js:21-23 | no more entries than pieces; every entry is non-empty and trimmed |
| `Scheduler.EntriesAppend` | scheduler.js:21-23 | entries keep the order of the pieces |
| `Scheduler.BlankEntryDropped` | scheduler.js:23 | a blank piece anywhere is dropped and changes nothing else |
| `Scheduler.AuthorizedIds` | scheduler.js:20-24 | an unset or empty variable gives no ids; never more ids than comma-separated pieces |
| `Scheduler.AuthorizedIdsOfList` | scheduler.js:20-24 | non-blank entries joined by commas give one id per entry, in order, each `parseInt` of the trimmed entry, NaN kept |
| `Scheduler.ClockFields` | scheduler.js:75-77 | no contract; characterised by `ClockFieldsOf` and the `Time…` lemmas |
| `Scheduler.ClockFieldsOf` | scheduler.js:75-77 | for `H:M` followed by non-digit, colon-free text, the fields read as the values of the digits `H` and `M` |
| `Scheduler.TimeToCron` | scheduler.js:74-82 | the result is a time on the clock or the default, and always on the clock when the default is |
| `Scheduler.TimeToCronReadsClock` | scheduler.js:78-79 | every `HH:MM` on the clock is scheduled at that hour and minute, whatever the default |
| `Scheduler.TimeOfDigits` | scheduler.js:78-79 | every time whose digit fields are on the clock is scheduled at that time, whatever follows the minute and whatever the default |
| `Scheduler.TimeWithoutColon` | scheduler.js:77-81 | any time without a colon falls back to the default, for every default |
| `Scheduler.TimeWithoutHour` | scheduler.js:76-81 | any time whose hour field holds no digit falls back to the default, for every default |
| `Scheduler.TimeWithoutMinuteDigit` | scheduler.js:77-81 | any time whose minute field holds no digit, as in `19:` or `7:pm`, falls back to the default, for every default |
| `Scheduler.TimeOffClock` | scheduler.js:78-81 | any time whose digit fields are off the clock falls back to the default, for every default |
| `Scheduler.CronText` | scheduler.js:79 | no contract; characterised by `CronTextFields` |
| `Scheduler.CronTextFields` | scheduler.js:79 | the cron text's first field reads back as the minute and its second as the hour |
| `Scheduler.TimeWithSuffix` | scheduler.js:76-77 | `"7:30pm"` is scheduled at 7:30 |
| `Scheduler.TimeOutOfRange` | scheduler.js:81 | `"25:99"` falls back to the default |
| `Scheduler.TimeWithoutMinute` | scheduler.js:77 | `"19"` (no minute) falls back to the default |
| `Scheduler.TimeMissing` | scheduler.js:75 | an absent or empty time falls back to the default, for every default |
| `Scheduler.ReportTime` | scheduler.js:84-85 | an absent or empty setting gives the fallback, any other setting is kept; with a non-empty fallback the report time is never empty |
| `Scheduler.TriggerFor` | scheduler.js:84-88 | the label is the setting, or the fallback when it is unset or empty; the trigger fires at `TimeToCron` of that label with the given default, so always on the clock; the label is never empty |
| `Scheduler.Triggers` | scheduler.js:84-110 | two triggers: the first built from the first report time with fallback 19:00 and default 19:00, the second from the second with 22:00; each has a non-empty label and a time on the clock |
| `Scheduler.ConfiguredFirstTrigger` | scheduler.js:84-101 | any configured first time `HH:MM` on the clock is both the first trigger's label and when it fires |
| `Scheduler.ConfiguredSecondTrigger` | scheduler.js:85-111 | any configured second time `HH:MM` on the clock is both the second trigger's label and when it fires |
| `Scheduler.DefaultTriggers` | scheduler.js:84-110 | with nothing configured the triggers are 19:00 and 22:00 |
| `Scheduler.UnreadableTimeTrigger` | scheduler.js:84-87 | an unreadable first time keeps its text as label and fires at 19:00 |
| `Scheduler.ReportText` | scheduler.js:46-53 | the text sent is the report, or `❌ Error generating <label> report: <message>` when building threw |
| `Scheduler.SendScheduledReport` | scheduler.js:32-64 | no recipients or no bot: nothing sent, one log line. A throwing day-key read: nothing sent or logged, and the call rejects with its message. Otherwise every recipient gets exactly one send, in list order, of the same text; each outcome is its own, failures are logged and do not stop the loop, and nothing is retried |

## Left out

- Clocks and timers: `updateClock`, its `setInterval`, the time stamps, and the three-second auto-clear of a success status in `showStatus`.
- HTTP: `fetch` in `loadHistory`, `loadSettings` and `saveSettings`. A load or save outcome is a parameter, either a result or an error message. `loadHistory`'s own response checks and error text are not modelled.
- Markup: HTML templates, `innerHTML`, `createElement`, CSS class names, fluid labels and icons, and the plural "episode(s)". Each decision is a datatype value instead.
- `cron.schedule` registration and its timezone handling. The `tz` fallback from settings and environment is not modelled either.
- `buildReport`, `db.getDayKey`, `db.getSetting`, `getBot` and `bot.sendMessage` are not part of this model. Their outcomes are parameters: `Build`, `DayKeyLookup`, the report-time settings, `send` and `BotLookup`. The day key itself is not represented, because only `buildReport` uses it.
- The trigger callbacks' `.catch(console.error)` is not modelled. A rejected `sendScheduledReport` is returned as `thrown`.
- The server-side aggregation that produces each day's summary is not part of this model. This covers day keys, intake sums and the rounded percent; day records arrive as given.
- async scheduling: the sends are awaited one at a time, so they are a plain loop.
- Console output is a list of `LogLine` values, not text.
- Numbers are unbounded integers. Double precision, `-0` and non-integer scores or amounts are not represented.
- `byType` is always a list of entries. The `|| {}` guard for a missing object is not represented.
- A wellness slot is a check or `null`. An `undefined` slot, which `hasAnyData` would count as data, is not represented.
- Input sanitisation by type, such as an `input type="number"` emptying a non-numeric value, is not represented. The page markup is not part of this model, so every non-select, non-radio field is a `TextInput` that keeps what it is assigned.
- Loaded setting values are strings or `null`. A value of another JSON type would be shown through `String()`, which is not modelled.
- Settings.SettingsPage.SaveSettings: the request is a parameter, so the contract cannot observe the disabled "⏳ Saving…" button held while the request is in flight. Only the final state is stated.
- Scheduler.SendScheduledReport: a send's outcome depends only on its position and recipient (`send(i, id)`). Outcomes that depend on time or on earlier sends are not expressed.
