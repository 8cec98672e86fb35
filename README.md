# meter-sockets in Dafny

A model of the ioBroker **meter-sockets** adapter. The adapter watches the
power reading of a smart plug and decides whether the appliance behind it is
running. It keeps a log of the appliance's completed runs ("jobs").

For every new reading of a device's metered state, the adapter does the
following:

- it floors the reading to hundredths;
- it pushes the reading into a window of the last 12 readings;
- it reduces that window to an integer average with `getAverage`;
- it adds the reading to the running total;
- it runs a two-state running/idle machine against the device's threshold;
- on a finish, it clears the window and appends a job record.

At start-up the adapter numbers the configured devices and creates their
state trees. A small helper library supplies:

- a dotted-quad rendering of an integer;
- message wrapping;
- date-time formatting;
- the create-or-set protocol for state objects.

The project has five modules:

- `Values` (values.dfy): JavaScript values as far as the adapter inspects
  them, and decimal rendering of integers.
- `Smoothing` (smoothing.dfy): the reading in hundredths, the window, and
  `getAverage`. This includes the loop of `getAverage` as a method.
- `Library` (library.dfy): `getIP` (over an array, reversed in place), `msg`,
  `getDateTime`, `_createNode` (a method filling `common`), `_setValue` and
  `set`.
- `Meter` (meter.dfy): the `stateChange` handler. The device's states are
  the fields of the class `DeviceStates`, and the handler is its method
  `StateChange`. That method is proved equal to the pure function `Step` on
  a snapshot of the fields. The lemmas about `Step` and `Run` (readings one
  after another) state what the adapter promises.
- `Registry` (registry.dfy): the `ready` handler and the id rule of
  `createDevice`.

Other modelling conventions:

- A reading `val` is the integer `h = floor(100 * val)`, standing for the
  JavaScript number `h / 100`.
- `parseInt(h / 100)` is truncation toward zero, written out for negative
  readings.
- `Math.round(s / n)` is `(2s + n) / (2n)` with floor division, that is,
  round half up. `Math.round` ignores the second argument that `getAverage`
  passes it.
- The platform's store becomes reads and writes of fields or of returned
  action lists.
- The clock (`Date.now()`) and the local-time decomposition of a timestamp
  (`new Date(t).getDate()` and so on) are parameters.

Some of the code's behaviour may be surprising. It is modelled as written:

- A job's `runtime` is computed as `started - finished`
  (main.js:204), which is never positive when the clock did not go back
  (`Meter.JobRuntimeNotPositive`). It is not the elapsed time.
- `getAverage` is 0 not only when the truncated sum is 0, but whenever
  the mean of the truncated non-zero entries lies in [-1/2, 1/2)
  (`Smoothing.AverageZeroWhenSmall`). For non-negative readings that means
  twice the truncated sum is below the number of non-zero entries. For
  example, a window of 1, 0.5, 0.5 truncates to 1, 0, 0 and rounds to 0.
- `status.total` is never reset when a run starts. Were the total a number,
  a job would record everything accumulated since the total was last
  missing, not the consumption of that run.
- As `createDevice` leaves it, though, `status.total` holds `''`, and
  `parseInt('')` is NaN. From then on the total stays NaN
  (`Meter.Total.Blank`), and every job records `NaN || 0`, which is 0
  (`Meter.AddSampleValue`, `Meter.RunBlankJobsZero`).

## Model

| member | source | states |
|---|---|---|
| Smoothing.Sample | main.js:87 | the reading in hundredths is the largest integer not above 100 times the reading |
| Smoothing.TruncUnits | main.js:267 | `parseInt` of a reading gives its whole units, truncated toward zero for both signs |
| Smoothing.RoundHalfUp | main.js:268 | `Math.round(s / n)` lies within one half of s/n, halves going up |
| Smoothing.RoundHalfUpUnique | main.js:268 | exactly one integer lies within that half, so the rounding is determined |
| Smoothing.NonZero | main.js:266 | `filter(Boolean)` on the window; never longer than it; its meaning is stated by `NonZeroMembers`, `NonZeroCounts`, `NonZeroOfZeros` and `NonZeroKeepsNonZero` |
| Smoothing.NonZeroMembers | main.js:266 | a value is in the filtered window exactly when it is a non-zero value of the window, and the filtered window holds no zero |
| Smoothing.NonZeroCounts | main.js:266 | the filter keeps every non-zero value as often as the window holds it and drops every zero |
| Smoothing.NonZeroOfZeros | main.js:266 | an empty or all-zero window filters to nothing |
| Smoothing.NonZeroKeepsNonZero | main.js:266 | a window without zeros passes the filter unchanged |
| Smoothing.Average | main.js:263-268 | the value `getAverage` returns, defined on the window; its meaning is stated by `AverageOfNothing`, `AverageIsRoundedMean`, `AverageWithinRange` and `AverageZeroWhenSmall` |
| Smoothing.GetAverage | main.js:263-268 | the accumulator loop (subtracting each truncated entry, negating at the end) returns `Average` of the window |
| Smoothing.AverageOfNothing | main.js:266-268 | an empty or all-zero window averages to 0 |
| Smoothing.AverageIsRoundedMean | main.js:263-268 | with a non-zero entry, the average is the rounded mean of the truncated non-zero entries (the `total === 0` guard agrees with rounding there) |
| Smoothing.TruncSum | main.js:267 | the sum of the whole units `parseInt` gives for each entry, the negation of the loop's accumulator; `TruncSumBounds`, `TruncSumNonNegative` and `GetAverage` state its meaning |
| Smoothing.TruncSumBounds | main.js:267 | the truncated sum lies between count times the smallest and count times the largest truncated entry |
| Smoothing.TruncSumNonNegative | main.js:267 | non-negative readings have a non-negative truncated sum |
| Smoothing.AverageWithinRange | main.js:263-268 | the average lies between the smallest and the largest truncated non-zero entry |
| Smoothing.AverageZeroWhenSmall | main.js:263-268 | the average is 0 exactly when there is no non-zero entry or the mean of the truncated non-zero entries lies in [-1/2, 1/2), that is, minus their count is at most twice their sum and twice their sum is below their count |
| Smoothing.SteadyExample | main.js:263-268 | 10, 10, 10 averages to 10 |
| Smoothing.AverageExamples | main.js:263-268 | 0, 10, 20 averages to 15: the zero is dropped before the mean |
| Smoothing.TruncationExamples | main.js:263-268 | 0.5 averages to 0; 1, 0.5, 0.5 to 0; the empty window to 0 |
| Smoothing.Slide | main.js:124-126 | push the reading and drop the oldest entry beyond 12; its meaning is stated by `SlideShape` and `WindowIsLatest` |
| Smoothing.SlideShape | main.js:124-126 | a window within capacity stays within 12, ends with the new reading, and loses at most its oldest entry, the others keeping their order |
| Smoothing.Latest | main.js:124-126 | the reference window: the last 12 readings in arrival order |
| Smoothing.WindowIsLatest | main.js:124-126 | pushing readings one at a time always leaves exactly the 12 most recent ones, in order |
| Library.Shift | library.js:93-96 | each shifted value lies below 2^32 |
| Library.ShiftMask | library.js:93-96 | each masked value is a byte |
| Library.GetIP | library.js:90-100 | pushing the four masked bytes, reversing the array in place and joining gives the dotted rendering of the octets, most significant first |
| Library.Octets | library.js:92-98 | the four masked shifts, most significant first, which is the order left by pushing least significant first and reversing; its meaning is stated by `OctetsReassemble` |
| Library.Dotted | library.js:99 | `join('.')` of the decimal octets; its meaning is stated by `GetIPRoundTrip` |
| Library.OctetsReassemble | library.js:92-99 | the four octets are bytes and reassemble to the number modulo 2^32 |
| Library.GetIPRoundTrip | library.js:90-100 | the dotted quad splits back into four decimal fields that read back as the octets, and so as the number modulo 2^32 |
| Values.TypeOf | library.js:117 | the `typeof` operator, with `typeof null` being "object"; `Wrap` and `Msg` state its use |
| Library.Wrap | library.js:117 | the payload is always an object: objects (and null) pass unchanged, anything else becomes `{message: message}` |
| Library.WrapIdempotent | library.js:117 | wrapping a wrapped payload changes nothing |
| Library.Msg | library.js:112-120 | the message goes to the given receiver with the given command, and its payload is the wrapped message, so always an object |
| Library.Last2 | library.js:141 | `substr(-2)`: the last two characters, or all of a shorter string; `Pad2` and `Pad2Digits` state its effect |
| Library.Pad2 | library.js:135-140 | each padded field has exactly two characters |
| Library.Pad2Digits | library.js:135-141 | the padded field is the last two decimal digits of its number, reading back as the number modulo 100 |
| Library.GetDateTime | library.js:129-142 | the result is empty exactly when the timestamp is undefined or not positive |
| Library.Formatted | library.js:135-141 | the rendering of a timestamp's local date and time; its layout is stated by `FormattedLayout` and the fields by `Pad2Digits` |
| Library.FormattedLayout | library.js:135-141 | the rendering has length 15 plus the year's length; the padded day, a dot, the padded month plus one, a dot and the unpadded year, then a space, the padded hours, a colon, the padded minutes, a colon and the padded seconds, each at its fixed place |
| Library.Defaults | library.js:200 | the lowest-priority `common` fields, role 'state' and type 'string'; `NodeCommonPriority` and `NodeCommonFields` state their place |
| Library.Overrides | library.js:195-198 | name, role and type are set exactly when description, role and type are defined |
| Library.NodeObject | library.js:200 | the object `setObject` receives; its `common` is stated by `NodeCommonPriority` and `NodeCommonFields` |
| Library.CreateNode | library.js:193-201 | the conditional assignments build the created node's object |
| Library.NodeCommonPriority | library.js:200 | a key of the created `common` comes from the node's own fields first, then from `node.common`, then from the defaults; role and type are always present |
| Library.NodeCommonFields | library.js:195-200 | a created node's name, role and type: its own when defined, else role 'state' and type 'string' unless `node.common` gives them |
| Library.SetValue | library.js:211-216 | a write is issued exactly when the value is not undefined |
| Library.Set | library.js:158-177 | the node is created exactly when the lookup failed or found nothing, the value is written first exactly when it is defined, and nothing else is issued |
| Values.NatToString | library.js:99 | the decimal rendering of a number: never empty and ending in its last digit; `ParseNatToString`, `NatToStringDigits` and `NatToStringInjective` state the rest |
| Values.IntToString | main.js:232 | the decimal rendering of an integer: never empty, with a leading '-' when negative; `IntToStringDigits` and `DeviceIdShape` state the rest |
| Values.ParseNatToString | main.js:232 | the decimal rendering of a number is all digits and reads back as that number |
| Values.NatToStringDigits | main.js:232 | the decimal rendering of a number is made of digits only |
| Values.IntToStringDigits | main.js:232 | the rendering of a non-negative integer is all digits; a negative one's is a minus sign followed by digits |
| Values.NatToStringInjective | main.js:232 | different numbers have different decimal renderings |
| Meter.Seconds | main.js:142 | `Math.round(ms / 1000)`; its meaning is stated by `SecondsNearest` |
| Meter.Created | main.js:236-239 | the states of a freshly created device, every node holding ''; its meaning is stated by `DeviceStates.constructor`, and `Scenario` runs from it |
| Meter.SecondsNearest | main.js:142 | `Math.round(ms / 1000)` is the nearest second, halves going up |
| Meter.AddSample | main.js:135 | the new total after a reading; its meaning is stated by `AddSampleValue` |
| Meter.AddSampleValue | main.js:135 | the total keeps the previous total's whole units plus the reading; a missing total becomes 0; a NaN total stays NaN |
| Meter.JobTotal | main.js:198 | the stored total, falling back to 0 for a blank (NaN) total; `StepFinish` states that a job records it |
| Meter.Decide | main.js:138-165 | a start fires exactly when idle and the average is above the threshold, a finish exactly when running and the average is at most the threshold; neither fires without a threshold |
| Meter.DecideFollowsAverage | main.js:138-165 | after the decision the device runs exactly when the average is above the threshold |
| Meter.DeviceStates.constructor | main.js:236-239 | the states `createDevice` creates all hold '' (idle, empty window, no jobs) |
| Meter.DeviceStates.Display | main.js:110-112 | the device name, metered state and enabled flag are written and nothing else |
| Meter.DeviceStates.Push | main.js:122-132 | the window slides by the reading, the threshold is written when defined, and the average of the new window is written and returned |
| Meter.DeviceStates.Accumulate | main.js:135 | the running total is updated and nothing else |
| Meter.DeviceStates.Begin | main.js:141-146 | running, the start time in seconds and its rendering are written, and the finish fields are cleared |
| Meter.DeviceStates.Close | main.js:165-211 | running is cleared, the finish time and its rendering written, the window emptied and one job appended |
| Meter.DeviceStates.StateChange | main.js:83-219 | the handler's new states are `Step` of the old ones, and it notifies as `Notices` says for the transition taken |
| Meter.Admitted | main.js:92-107 | the handler passes its early returns; `StepIgnored` and `RunInactive` state that otherwise nothing changes |
| Meter.Metered | main.js:110-135 | the writes of every admitted reading; its meaning is stated by `StepMeters` and `DeviceStates.Push` |
| Meter.TransitionOf | main.js:138-165 | the transition a reading causes; `Decide` states when each fires, and `StepStart`, `StepFinish`, `StepStay` and `StepRunningFollowsAverage` what it does |
| Meter.Started | main.js:141-146 | the writes of a start; its meaning is stated by `StepStart` and `DeviceStates.Begin` |
| Meter.Closed | main.js:170-211 | the writes of a finish; its meaning is stated by `StepFinish` and `DeviceStates.Close` |
| Meter.Step | main.js:83-219 | the states after one handler call; its meaning is stated by the `Step…` lemmas below and by `DeviceStates.StateChange` |
| Meter.JobOf | main.js:202-209 | the job a finish appends; its fields are stated by `StepFinish` and `JobRuntimeNotPositive` |
| Meter.StepIgnored | main.js:92-107 | an unreadable configuration, an inactive device or an unreadable `_running` leaves every state unchanged |
| Meter.StepMeters | main.js:122-135 | an admitted reading keeps the window within 12; a finish empties it, otherwise it ends with the reading; the average and total are updated |
| Meter.StepRunningFollowsAverage | main.js:138-165 | with a threshold, the device runs after a reading exactly when the new average is above it |
| Meter.StepStart | main.js:138-146 | a start happens only when idle; it sets running, the start time and date, clears the finish fields and keeps the jobs |
| Meter.StepFinish | main.js:165-211 | a finish happens only when running; it clears running and the window and appends exactly one job after the unchanged earlier ones, with the stored start, the end, runtime start minus end, the total, and both renderings |
| Meter.StepStay | main.js:138-165 | without a transition the running state, start and finish fields and jobs are unchanged |
| Meter.StepStaysRunning | main.js:138-165 | while running, readings above the threshold rewrite neither the start nor the jobs, and notify nobody |
| Meter.JobRuntimeNotPositive | main.js:204 | the job a finishing step appends has as runtime minus its elapsed seconds, so never positive when the clock did not go back |
| Meter.Configured | main.js:149-180 | a notification target is defined and not empty, the guard of every notice; `NoticesGuard` states its use |
| Meter.Notices | main.js:149-188 | who is notified on a transition; its meaning is stated by `NoticesGuard` |
| Meter.NoticesGuard | main.js:149-188 | nobody is notified without a transition; on a start or a finish, the device's own Echo is spoken to exactly when it is defined and non-empty and the transition's spoken text is non-empty, and no other Echo is ever spoken to; a Telegram message goes out exactly when the Telegram target is defined and non-empty and the transition's text is non-empty, to everybody exactly for 'ALL' and otherwise to the named user; there are at most two notices |
| Meter.RunKeepsWindowBound | main.js:124-126 | over any readings the window never exceeds 12 |
| Meter.RunKeepsJobs | main.js:195-211 | over any readings the job list only grows at the end, by at most one job per reading, earlier jobs unchanged |
| Meter.RunBlankJobsZero | main.js:135-198 | from a blank (NaN) total, over any readings the total stays blank and every job appended records a total of 0 |
| Meter.RunInactive | main.js:101 | an inactive device ignores every reading |
| Meter.ScenarioAverages | main.js:263-268 | the windows 2; 2,9; 2,9,1; 1 average to 2, 6, 4 and 1 |
| Meter.Scenario | main.js:83-219 | threshold 5, readings 2, 9, 1, 1: a start at the second reading, a finish at the third, one job of runtime -10 seconds, then a window holding only the last reading |
| Registry.Slug | main.js:232 | the slug has the name's length |
| Registry.SlugShape | main.js:232 | the slug has no spaces and no upper-case letters, spaces become `_`, and other characters keep their place |
| Registry.SlugIdempotent | main.js:232 | a slug of a slug is the slug |
| Registry.DeviceId | main.js:232 | a device's id: its number in decimal, else the slug of its name; its meaning is stated by `DeviceIdShape` |
| Registry.DeviceIdShape | main.js:232 | a numbered device's id is its number in decimal and reads back as it; an unnumbered one's id is a space-free slug of the same length as the name |
| Registry.Ready | main.js:54-77 | nothing is listed exactly when no devices are configured; otherwise the devices with a non-empty metered state are created in order, and their states subscribed |
| Registry.Registered | main.js:65-72 | the devices `ready` sets up; its meaning is stated by `RegisteredSound`, `RegisteredComplete`, `RegisteredOrdered` and `RegisteredIdsDistinct` |
| Registry.RegisteredSound | main.js:65-72 | every registered device is a configured one with a non-empty state, numbered by its index |
| Registry.RegisteredComplete | main.js:65-72 | every configured device with a non-empty state is registered, numbered by its index |
| Registry.RegisteredOrdered | main.js:65-72 | registered devices carry their indices, in increasing order, as ids |
| Registry.RegisteredIdsDistinct | main.js:65-72 | no two registered devices share an id |

## Left out

- The libsodium helpers `getEncryptionKey`, `encrypt` and `decrypt`
  (library.js:34-81) are calls into a foreign library with random nonces.
- The platform's calls (`getObject`, `getState`, `setState`,
  `extendObject`, `subscribeForeignStates`, `sendTo`) are left out as
  calls. They become reads and writes of the device's fields, the action
  lists of `Library.Set`, and the subscription list of `Registry.Ready`.
  Their callbacks are taken in the order they are issued. So the total is
  updated (main.js:135) before the job reads it (main.js:196), and races
  between overlapping readings are not modelled.
- The errors of those calls are left out where the code would throw
  (reading `obj.common` of a failed lookup).
- The notification texts (the `%device%` replacement) and their delivery
  are left out; only who is notified is modelled (`Meter.Notices`).
- The four notification texts (`Meter.Templates`) are taken as defined
  strings. A text missing from the configuration passes the `!== ''` guard
  when its target is configured, and the `replace` on it then throws
  (main.js:150, 156, 177, 183). The rest of that branch is then not done:
  after a start, no Telegram message follows a failed Alexa text; after a
  finish, the writes of main.js:170-173 stand, but no Telegram message is
  sent and no job is appended. The model always completes the branch.
- IEEE floating point is left out: readings are hundredths,
  `Math.floor(val * 100)` is taken on exact reals, and thresholds are
  compared as exact reals.
- JSON is left out: the window and the job list are sequences, not JSON
  text.
- `Date.now()`, time zones and the calendar are parameters. The start
  writes (main.js:142-143) read the clock twice; the model reads it once.
- Meter.DeviceStates.StateChange: the date-time strings are computed by the
  handler and passed to `Begin` and `Close`, rather than inside them as in
  the code; the values written are the same.
- `createDevice` writing the state tree, renaming the device and extending
  the metered state's object (main.js:233-250) is left out, apart from the
  initial states (`Meter.Created`) and the id rule.
- Meter.Created describes the states of a device's first creation only.
  `ready` runs `createDevice` again on every start of the adapter
  (main.js:238, library.js:174-175), writing '' into every state it lists.
  So a restart blanks `_running`, the jobs, the total and the start time,
  and the job history is lost; only the window kept in `common.metered` of
  `status.average` survives. Restarts are not modelled.
- Registry.Slug: `toLowerCase` is modelled for the ASCII letters only.
- IntToString (`toString` of numbers) is exact for integers; the exponent
  notation JavaScript uses for very large numbers is left out.
- The admin page (admin/admin.js) and its translations (admin/words.js) are
  not part of this model.
