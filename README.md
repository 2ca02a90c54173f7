# Red-light enforcement dashboard: state logic

This project models the state logic of a simulated red-light enforcement
controller, a single-page dashboard component. The model covers:

- The junction signal. A timer cycles it GREEN → YELLOW → RED → GREEN, starting at GREEN. Two manual buttons force RED or GREEN.
- The event log. It shows the newest message first and keeps at most 15.
- The violation list. A triggered detection at RED fabricates a vehicle from random draws and highlights its plate on camera pole 1. At pole 2 it prepends a PENDING violation record, with one evidence image per pole. When the justification report resolves, every record with that id becomes CONFIRMED with the report attached. A last timer clears the pole highlights.
- Autonomous mode. It is an on/off flag whose periodic trigger fires with a 40% chance.

Modules:

- `Types` models the record types: signal phases, vehicles, detection events, violations and their statuses. A camera pole is the subset type `Pole` of the integers 1 and 2, so a detection event, an evidence URL and a pole highlight can only name one of the two poles. It also defines `Lifecycle`, the two states a record can reach: PENDING with no justification, or CONFIRMED with a non-empty one.
- `Decimal` renders a whole number the way a template literal does, and parses it back.
- `Reports` models the report service's fallback rules. The outcome of the text-generation call is an input.
- `Simulation` holds the pure parts of the component: the signal cycle, the capped log, the vehicle draws, the evidence URLs, the new record and the confirm-by-id update.
- `App` holds the component state as class `AppState`. It has one method per event handler or timer callback: `Tick`, `Override`, `Trigger` (through `StartRun`), `Pole2Step`, `Confirm`, `ClearDetections`, `ToggleAutoSim`, and `AutoTick` / `AutoTickAsWritten` for one firing of the autonomous interval. `Valid()` is the invariant every method keeps:
  - the log holds at most 15 entries;
  - every record satisfies `Lifecycle`, so DISMISSED is never reached;
  - a periodic trigger is installed exactly while autonomous mode is on.

Random draws, clock readings, interval handles and report outcomes are method arguments. Each callback runs atomically. Interleaving overlapping detection sequences is left to whoever calls the methods, so the race on the pole highlights is kept and not hidden.

Confirmation matches by id only. The ids are random strings, so an older record that happens to share the id is confirmed as well. `Simulation.ConfirmFreshHead` shows that when the id is fresh, only the new record changes.

## Model

| member | source | states |
|---|---|---|
| Types.SignalName | types.ts:2-6 | the signal enumeration has exactly the three values RED, YELLOW, GREEN, each with its own string |
| Types.VehicleTypeName | types.ts:11 | a vehicle class is one of Sedan, SUV, Truck, Motorcycle |
| Types.Lifecycle | types.ts:24-33 | a record in its lifecycle is never DISMISSED, and it is CONFIRMED exactly when it carries a justification |
| Types.VehicleTypeNameInjective | types.ts:11 | the four vehicle classes have distinct names |
| Decimal.Show | App.tsx:54 | the rendering of a number is a non-empty string of decimal digits, one digit long exactly for numbers below 10 |
| Decimal.ShowValue | App.tsx:54 | reading back a rendered number yields the number (round trip) |
| Decimal.ShowInjective | App.tsx:54 | distinct numbers render differently |
| Decimal.ShowFourDigits | App.tsx:54 | every plate number from 1000 through 9999 renders as four digits |
| Reports.Justification | services/geminiService.ts:35-38 | the report is never empty: the response text if it has one, the empty-response fallback otherwise, and the fixed error fallback when the call fails |
| Simulation.Phase | App.tsx:27-31 | a phase's position in the cycle is below 3, and 0 exactly for GREEN |
| Simulation.PhaseInjective | App.tsx:27-31 | distinct phases have distinct positions |
| Simulation.NextSignal | App.tsx:27-31 | a tick advances the position by one modulo 3 and always changes the phase |
| Simulation.TicksPhase | App.tsx:26-32 | after n ticks the position has advanced by n modulo 3 |
| Simulation.CycleOfThree | App.tsx:27-31 | n ticks return a phase to itself exactly when 3 divides n; the cycle has period 3 |
| Simulation.FromGreen | App.tsx:10-31 | from the initial GREEN, the phases seen are GREEN, YELLOW, RED, repeating |
| Simulation.PushLog | App.tsx:20-22 | the new message is at index 0, the previous messages follow in order, and the length is one more than before, capped at 15 |
| Simulation.PushAllNewestFirst | App.tsx:20-22 | after any run of messages the log is the newest 15 messages, newest first, then as much of the earlier log as fits |
| Simulation.Plate | App.tsx:54 | a plate is "MH 12 ", the series code, a space and the number's digits, at fixed positions |
| Simulation.PlateReadsBack | App.tsx:54 | a fabricated plate has the form "MH 12 XX dddd", and its series and number read back as drawn |
| Simulation.PlateInjective | App.tsx:54 | different series or number draws give different plates |
| Simulation.DrawVehicle | App.tsx:51-57 | the fabricated vehicle keeps the drawn id, has a well-formed plate with series TX, BJ or KP and number in 1000..9999, and one of the five colours |
| Simulation.KindDraw | App.tsx:55 | every vehicle class is produced by some draw index |
| Simulation.AutoFiresFortyPercent | App.tsx:114 | the autonomous trigger fires on 4 of the 10 rolls |
| Simulation.EvidenceUrl | App.tsx:80-81 | an evidence URL is the image host, the vehicle id and the pole digit at fixed positions, then the image size |
| Simulation.EvidenceUrlInjective | App.tsx:80-81 | an evidence URL determines both the vehicle id and the pole |
| Simulation.EvidenceDiffers | App.tsx:80-81 | a violation's pole-1 and pole-2 evidence URLs always differ |
| Simulation.NewViolation | App.tsx:74-82 | the new record is PENDING with no justification, carries the vehicle and both pole times, and has two distinct evidence references |
| Simulation.WithReport | App.tsx:91 | a confirmed record has status CONFIRMED and the report attached, every other field as before, and is in its lifecycle when the report is non-empty |
| Simulation.ConfirmById | App.tsx:89-93 | the confirm update keeps the list length |
| Simulation.ConfirmByIdAt | App.tsx:89-93 | at each position, a record with the matching id becomes CONFIRMED with the report and keeps every other field; any other record is unchanged |
| Simulation.ConfirmByIdLifecycle | App.tsx:89-93 | confirming with a non-empty report keeps every record in its lifecycle |
| Simulation.ConfirmByIdAbsent | App.tsx:89-93 | confirming an id no record carries changes nothing |
| Simulation.ConfirmByIdIdempotent | App.tsx:89-93 | confirming the same id twice with the same report is the same as confirming it once |
| Simulation.ConfirmFreshHead | App.tsx:84-93 | confirming a freshly prepended record with an unused id changes the head only |
| App.AppState.Valid | App.tsx:11-22 | the component invariant: at most 15 log entries, no record DISMISSED, and autonomous mode on exactly while a periodic trigger is installed |
| App.AppState.constructor | App.tsx:10-18 | the initial state: GREEN, no violations, empty log, no highlights, autonomous mode off with no interval installed |
| App.AppState.AddLog | App.tsx:20-22 | the log becomes the old log with the message pushed, and stays within 15 entries |
| App.AppState.Tick | App.tsx:26-32 | the signal takes its next phase; nothing else changes |
| App.AppState.Override | App.tsx:211-217 | a manual button sets the signal to RED or GREEN; nothing else changes |
| App.AppState.StartRun | App.tsx:45-64 | a trigger that sees anything but RED only logs the idle notice; at RED it fabricates the vehicle, logs the crossing and the identity, and highlights the plate on pole 1; the violation list never changes |
| App.AppState.Trigger | App.tsx:45-62 | the manual trigger is gated on the current signal, and a detection starts exactly when it is RED |
| App.AppState.Pole2Step | App.tsx:67-85 | the violation list gains one record at the front, the PENDING record built from the run, and the old list follows unchanged; pole 2 highlights the plate; two log lines are pushed |
| App.AppState.Confirm | App.tsx:88-94 | the list keeps its length and order; records with the id become CONFIRMED with the report; every other record is identical; the challan line is logged |
| App.AppState.ClearDetections | App.tsx:97-99 | both pole highlights are cleared |
| App.AppState.ToggleAutoSim | App.tsx:105-119 | the flag is negated; turning off cancels the installed interval; turning on installs exactly one, whose trigger captures the current signal; the matching log line is pushed |
| App.AppState.AutoTickAsWritten | App.tsx:113-117 | as written, a firing starts a detection exactly when the roll passes the threshold and the signal captured at activation is RED |
| App.AppState.AutoTick | App.tsx:113-117 | with the gate reading the current signal, a firing starts a detection exactly when the roll passes the threshold and the signal is RED |
| App.AutoScenario | App.tsx:105-117 | after activation and one tick, the as-written firing follows the signal at activation, and the gated firing follows the signal at firing |
| App.StaleSignalScenario | App.tsx:105-117 | as written, a detection starts while GREEN and none starts while RED |
| App.CurrentSignalScenario | App.tsx:45-49 | gated on the current signal, a detection starts while RED and none starts while GREEN |
| App.FailedReportScenario | App.tsx:67-94 | a detection at RED whose report call fails gives exactly one record: PENDING first, then CONFIRMED with the fixed fallback text |
| App.ToggleTwiceScenario | App.tsx:105-119 | turning autonomous mode on then off leaves it off, with no periodic trigger installed and two log lines |

## Findings

| source | as written | input that shows it | evidently intended | confidence | as-written member | corrected member |
|---|---|---|---|---|---|---|
| App.tsx:113-117 | The autonomous interval calls the `triggerSimulation` captured when the mode was switched on. Its RED gate therefore reads the signal at activation. | Switch the mode on at RED, tick to GREEN, and roll above 0.6: a detection starts at GREEN. Switch it on at YELLOW, tick to RED, and roll above 0.6: only the idle notice is logged. | Autonomous triggers are gated on the current signal, as manual ones are. | high (not executed) | App.AppState.AutoTickAsWritten, App.StaleSignalScenario | App.AppState.AutoTick, App.CurrentSignalScenario |

The manual trigger's button is disabled unless the signal is RED (App.tsx:225), so only autonomous firings can start a detection away from RED, and only autonomous firings can reach the idle branch while the signal is RED.

## Left out

- Rendering is not modelled. That includes the JSX, the camera feeds, the violation table, styling and the `selectedViolation` selection state. It is presentation only.
- The geolocation lookup and the `location` label are not modelled. They are browser I/O.
- Timer scheduling is not modelled: the 8-second signal interval, the 3-second autonomous interval, the 1.5–2.5-second pole-2 delay and the 2-second reset delay. Each callback is an atomic method, and its caller picks the order. Overlapping detection sequences are those orders.
- Random ids are string arguments. The model promises nothing about their length or uniqueness.
- `Date.now()` is an argument. Nothing orders `endTime` after `startTime`, because the clock is not guaranteed to be monotone.
- Simulation.AutoFires models `Math.random() > 0.6` as a roll of 6 or more on the draw's first decimal digit. The one value that differs is a draw of exactly 0.6.
- The text-generation call of the report service is not modelled. Its outcome is the `Reports.Reply` argument. The prompt, the model configuration and the error logging are left out too.
- `classifyVehicle` is not modelled. Nothing calls it.
- Time formatting (`toLocaleTimeString`, `toFixed`) is not modelled. It only shapes text: the report prompt, the displayed times and the location label.
- App.AppState.ToggleAutoSim requires a positive interval handle. Browsers always return one, and a zero handle would be skipped by the truthiness check before clearing.
