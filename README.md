# Voice-command dispatcher of the sample vehicle app

A Dafny model of the core of a sample vehicle application: the handler that
receives a voice-command code on the `tw_mcu/sdvos_voice_ctrl` topic and turns
it into writes of vehicle signals (seat position, HVAC fan speed, the left
mirror's Pan signal, lumbar support), together with the process-wide
seat-position tracker it moves, the rejection replies it publishes when the
seat is at a bound, and the reply built for a speed query.

- `wrappers.dfy` — `Option`.
- `decimal.dfy` — how an integer is rendered into a message (Python's
  `str(int)`), and a parser of canonical decimal text that reads it back;
  the rendering is the one and only string the parser maps to its value.
- `messages.dfy` — the reply payloads: `{"result": {"status", "message"}}` as
  `Reply`, published on a topic as `Publication`; the voice-control rejection
  reply (status 1) and the speed reply (status 0, `"Current Speed = <value>"`).
- `voice_rules.dfy` — the constants, the rule for each of the ten codes, `Step`
  (one request: new tracker value and the ordered actions), `Run` (successive
  requests), and the properties: the tracker stays within [40, 60] on the grid
  40/50/60, the exact effect of each command, and that one request fires at
  most one rule.
- `sample_app.dfy` — class `SampleApp`: the tracker is the field `seatPos`;
  every signal write, two-second delay and publish is appended, in order, to
  the field `trace`. `OnVoiceControlRequestReceived` keeps the application's
  ten independent `if` blocks (not an exclusive chain) and is proved equal to
  `Step`, which is what shows that, the codes being distinct and the command
  never reassigned, at most one block fires.

The bound checks test the current position, not the proposed one (forward
fires whenever the position is below 60 and writes position + 10). The range
invariant therefore holds only because base, step and bounds line up;
`BoundNeedsAlignment` shows a position inside the range but off the grid from
which forward leaves it.

Two behaviours are kept exactly as the code has them, although the code's own
naming suggests something else was meant. The tilt-up and tilt-down commands
(codes `SDVOS_MIRRORREAR_TITL_UP`/`_DOWN`, values `VSS_MIRROR_TILT_UP`/`_DOWN`,
logged as "Mirror tilt up."/"Mirror tilt down.", app/src/main.py:191-201)
write the mirror's **Pan** signal. Lumbar deflation (app/src/main.py:209-211)
is a single write of 127, with no delay and no write of
`VSS_LUMBAR_AIRCELL_STOP`, unlike inflation just above it (app/src/main.py:203-208).

## Model

| member | source | states |
|---|---|---|
| `Decimal.Digits` | app/src/main.py:238 | the rendering of a natural number is a non-empty run of decimal digits that starts with `0` only for zero (no leading zeros) |
| `Decimal.ToString` | app/src/main.py:238 | the rendering of an integer is non-empty, starts with a minus sign exactly when the integer is negative, and parses back to that integer |
| `Decimal.ParseOnlyRendering` | app/src/main.py:238 | any string the canonical parser maps to `n` is exactly `ToString(n)`: no leading zeros, no `-0`, so the rendering is unique |
| `Decimal.ToStringInjective` | app/src/main.py:238 | distinct integers have distinct renderings |
| `Messages.VoiceResponseDistinct` | app/src/main.py:126-137 | a voice-control reply never equals a speed reply, and distinct messages give distinct voice-control replies |
| `Messages.SpeedResponse` | app/src/main.py:232-241 | the speed reply goes to the speed response topic with status 0; its message is `Current Speed = ` followed by exactly `ToString(speed)`, which reads back as the speed |
| `Messages.SpeedResponseInjective` | app/src/main.py:232-241 | two speed replies are equal only for equal speeds |
| `VoiceRules.SignalPathsDistinct` | app/src/main.py:157-211 | the four signals the rules write (seat Position, FanSpeed, left mirror Pan, Lumbar.Support) have four distinct data-broker paths |
| `VoiceRules.ReachableIsThreePositions` | app/src/main.py:56-59 | a position within [40, 60] that is a whole number of 10-steps from the base 50 is exactly one of 40, 50, 60 |
| `VoiceRules.StepPreservesReachable` | app/src/main.py:151-169 | from a reachable position, any request (any code, missing or unknown included) leaves the tracker reachable |
| `VoiceRules.RunPreservesReachable` | app/src/main.py:151-169 | from a reachable position, any sequence of requests leaves the tracker reachable |
| `VoiceRules.RangeInvariant` | app/src/main.py:79 | starting from the base 50, after any sequence of requests the tracker is within [40, 60] and is one of 40, 50, 60 |
| `VoiceRules.BoundNeedsAlignment` | app/src/main.py:152-153 | the bound tests the current value: from 55, inside the range but off the grid, forward takes the tracker out of the range |
| `VoiceRules.ForwardAtCeiling` | app/src/main.py:151-155 | at or above 60, forward leaves the tracker unchanged, writes nothing and publishes exactly one status-1 reply "The Seat Position willbe bigger than max value(60)." |
| `VoiceRules.ForwardBelowCeiling` | app/src/main.py:151-159 | below 60, forward writes position + 10 to the seat Position signal, sets the tracker to it and publishes nothing |
| `VoiceRules.BackwardAtFloor` | app/src/main.py:161-165 | at or below 40, backward leaves the tracker unchanged, writes nothing and publishes exactly one status-1 reply "The Seat Position willbe litter than min value(40)." |
| `VoiceRules.BackwardAboveFloor` | app/src/main.py:161-169 | above 40, backward writes position - 10 to the seat Position signal, sets the tracker to it and publishes nothing |
| `VoiceRules.FanCommands` | app/src/main.py:171-177 | fan start writes 45 and fan stop writes 0 to FanSpeed, one write each, tracker unchanged, no reply |
| `VoiceRules.MirrorCommands` | app/src/main.py:179-201 | each of codes 4-7 writes 120/121/122/123 to the left mirror's Pan signal, then a 2 s delay, then the stop value 118 to the same signal; nothing else, tracker unchanged |
| `VoiceRules.LumbarCommands` | app/src/main.py:203-211 | lumbar start writes 124, 125, a 2 s delay, then 126 to Lumbar.Support; deflation is the single write 127; tracker unchanged |
| `VoiceRules.UnrecognisedIsIdle` | app/src/main.py:148-211 | a missing `voice_cmd` or one outside 0-9 writes nothing, publishes nothing and leaves the tracker unchanged |
| `VoiceRules.StepTouchesOneSignal` | app/src/main.py:151-211 | for any request, all writes go to one signal, a publish is the only action when present, and the tracker moves only on forward (+10) or backward (-10) |
| `App.SampleApp.constructor` | app/src/main.py:79 | the tracker starts at the base 50 with nothing done yet, and satisfies the range invariant |
| `App.SampleApp.SetSignal` | app/src/main.py:157 | a signal write appends exactly that write to the trace |
| `App.SampleApp.Sleep` | app/src/main.py:182 | a sleep appends exactly one delay marker to the trace |
| `App.SampleApp.SendMqttResponse` | app/src/main.py:126-137 | appends exactly one publish of the status-1 voice-control reply carrying the message |
| `App.SampleApp.OnVoiceControlRequestReceived` | app/src/main.py:140-211 | the ten independent rule blocks leave the tracker and append to the trace exactly what the single matching rule of `Step` prescribes, and keep the range invariant |
| `App.SampleApp.OnGetSpeedRequestReceived` | app/src/main.py:213-242 | a speed query appends exactly one publish, the speed reply for the value read |

## Left out

- MQTT transport: `publish_mqtt_event` and topic subscription are SDK I/O; a publish is recorded as a `Publish` action in the trace.
- Vehicle Data Broker client: `set`, `get` and subscriptions are remote calls; a `set` is a `Write` action and the value of `Speed.get()` is a parameter. Failures of these calls, and the partial execution they would leave, are not modelled.
- `asyncio.sleep(2)` is a `Delay(2)` marker. The interleaving of other handlers at each `await`, and hence the unsynchronised read-modify-write race on the seat tracker, is concurrency and is not modelled: each request runs to completion before the next.
- JSON decoding and encoding: the handler receives the decoded `voice_cmd` as an optional integer. A payload that is not valid JSON (which raises at `json.loads`), a payload that is valid JSON but not an object such as `5` or `[0]` (which raises at `voice_data.get`, app/src/main.py:148), and the serialised text of replies are not modelled.
- `voice_cmd` values that are not integers: Python compares them with `==`, so a JSON `false`/`true` or `0.0` would match codes 0/1; only integer (or missing) commands are modelled.
- `Messages.SpeedResponse`: the speed is an integer; the SDK's speed may be a float, whose rendering (`50.0`) is not modelled.
- `on_start` (does nothing), `on_speed_change` (republishes the speed unchanged), logging, OpenTelemetry setup, the event loop and SIGTERM handling: plumbing with no logic of the dispatcher.
- The tracker is a field of the application object; in the application it is a module-level global, which is the same thing for the single application the process runs.
