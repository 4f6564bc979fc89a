# A verified model of the four-state button controller (fsm.py)

The program drives three LEDs (red, yellow, blue) from one push button
through four states: `start`, `warm`, `ready` and `snap`. A button
callback turns each press into a message (`shortPress`, `longPress` or
`noPress`) by how long the button was held. It writes that message into
the global inbox `msg`. The running state body polls or flashes, then
returns `[state, msg]`. `jump` looks the pair up in a ten-entry table to
choose the next body. An unknown pair falls back to `['start','START']`.

The model has seven pure modules and one class:

- `Types`: the states and messages as enumerations, with their source
  strings.
- `Classifier`: the duration thresholds.
- `Button`: the two callbacks as functions on the globals `msg` and `b_t0`.
- `Lights`: `setLED`'s pattern decoding and `flashLED`'s on/off sequence.
- `Transition`: `jump`'s table.
- `Bodies`: each state body as a function of the globals on entry and of
  the button edges that land while it runs.
- `Machine`: one iteration of `main`'s loop.
- `Controller.Fsm`: a class with fields for the globals, the LEDs,
  `main`'s `cur` and the waiting body `main` is still inside, if any. Its methods are the callbacks, `setLED`, `flashLED`,
  the four bodies with their loops, `jump` and the loop step. Each method
  is proved against the function that specifies it.

Asynchrony is an explicit interleaving. A body receives
`ticks: seq<seq<Edge>>`, where `ticks[i]` holds the press and release
edges handled during its `i`-th poll or flash. They are handled before
that iteration checks the inbox.

Some behaviour of the code is easy to misread:

- `warm` shows yellow only (`"rYb"`) and `snap` shows blue only (`"ryB"`).
- A transient body returns whatever the inbox holds after its flashes. That
  is "null" only if no release landed meanwhile.
- A too-short press still overwrites the inbox with `noPress`. No table
  entry has `noPress`, so it always takes the fallback and then re-enters
  `startState`, from every state.
- A release with no press recorded since the previous release measures
  from `b_t0 = 0`. Any clock reading above 1.2 then classifies as a long
  press.

## Model

| member | source | states |
|---|---|---|
| Types.MessageTextFaithful | fsm.py:65-68 | two messages are equal exactly when their strings are, and only the empty inbox is `""`, so `msg != ""` is `m != Empty` |
| Types.StateNameFaithful | fsm.py:44 | state names are distinct, so the string pairs `jump` compares are the enumeration values |
| Classifier.Classify | fsm.py:119-121 | a release always yields one of `longPress`, `shortPress`, `noPress` |
| Classifier.ClassifyBands | fsm.py:119-121 | `longPress` iff d > 1.2; `shortPress` iff 0.1 < d <= 1.2; `noPress` iff d <= 0.1, zero and negative durations included |
| Classifier.ClassifyMonotone | fsm.py:119-121 | a longer press never gives a weaker message |
| Classifier.ClassifyBoundaries | fsm.py:42 | exactly 1.2 is `shortPress`, exactly 0.1 is `noPress`; 0.05, 0.5 and 2.0 fall in the expected bands |
| Button.Press | fsm.py:109-111 | a press leaves the inbox untouched |
| Button.Release | fsm.py:114-121 | a release leaves a classifier message in the inbox and sets `b_t0` to 0 |
| Button.ReleaseOverwrites | fsm.py:118-121 | the message a release leaves does not depend on what the inbox held |
| Button.ReleaseWithoutPress | fsm.py:116-119 | with `b_t0 = 0`, a release at any clock reading above 1.2 is a `longPress` |
| Button.Deliver | fsm.py:124-125 | a press edge only records its clock reading in `b_t0`; a release edge leaves a classifier message and `b_t0 = 0` |
| Button.DeliverAll | fsm.py:124-125 | a run of callbacks with no release keeps the inbox message; with any release, the inbox ends with a classifier message |
| Button.DeliverAllAppend | fsm.py:124-125 | handling `xs` and then `ys` is handling `xs + ys`, so callbacks can be grouped by tick freely |
| Button.DeliverAllIsLatest | fsm.py:109-121 | after a run of callbacks the inbox holds the classification of the latest release, measured from the press recorded before it (or from 0 without one), or the old message if no release came; `b_t0` is the latest press's time, or 0 after a release |
| Lights.Decode | fsm.py:47-50 | on upper/lower-case patterns decoding loses nothing: spelling the decoded state gives the pattern back |
| Lights.DecodeSpell | fsm.py:47-50 | each channel is on exactly when its position holds the upper-case letter: decoding the spelled pattern of any light state gives that state back |
| Lights.DarkPattern | fsm.py:47-55 | among upper/lower-case patterns, `"ryb"` is the one all-off pattern |
| Lights.Flashes | fsm.py:52-56 | `n` flashes apply `2n` light states |
| Lights.FlashesAlternate | fsm.py:52-56 | flash `k` applies the pattern and then all-off, alternately |
| Lights.FlashesShape | fsm.py:52-56 | every flash light state is the pattern or dark, and a flash sequence ends dark |
| Transition.Next | fsm.py:130-143 | `longPress` selects `startState` from all four states; `noPress` and the empty inbox always take the fallback |
| Transition.TableIsFunctional | fsm.py:130-139 | ten entries, no pair listed twice, so the order of the elif chain does not matter |
| Transition.NextIsTable | fsm.py:130-143 | the lookup returns body `t` iff `(s, m, t)` is a table entry, and takes the fallback iff the pair is not listed |
| Transition.RowsAreBranches | fsm.py:130-139 | each of the ten listed pairs selects the body it names |
| Transition.EnteredFrom | fsm.py:131-138 | `warm` is entered only by `start`+`shortPress`, `snap` only by `ready`+`shortPress`, `ready` only by "null" from `warm` or `snap` |
| Bodies.Await | fsm.py:66-72 | a poll loop entered with an empty inbox returns at the first tick that carries a release and at no other, with a classifier message; without a release it is still polling with the inbox unchanged; entered with a message already waiting, it returns after its next tick |
| Bodies.AwaitIsFlat | fsm.py:66-72 | a poll loop leaves the inbox as if every edge of the ticks it ran had been handled in one run |
| Bodies.Pulse | fsm.py:80-81 | the globals after the first `n` flashes of a transient body: the message is the one the body wrote or a classifier message; `PulseMessage` says which, and `PulseIsFlat` says the inbox is that of handling all the flashes' edges in one run |
| Bodies.PulseMessage | fsm.py:79-82 | across the flashes of a transient body the inbox keeps the body's "null" unless a release lands, and then holds a classifier message |
| Bodies.PulseIsFlat | fsm.py:80-81 | the flashes of a transient body leave the inbox as if every edge of their ticks had been handled in one run |
| Bodies.Colour | fsm.py:63-105 | each state's light has exactly one channel on: yellow for `start` and `warm`, red for `ready`, blue for `snap` |
| Bodies.PollLoop | fsm.py:90-96 | a poll loop, entered or resumed, returns its body's name with a non-empty message, or runs out of ticks with the message it started with |
| Bodies.RunBody | fsm.py:60-106 | every body returns its own state name with the inbox's message, never `""`; transient bodies always return; waiting bodies return iff a release lands, with a press message |
| Bodies.TransientReply | fsm.py:103-106 | `warm`/`snap` return "null" iff no release landed during their 6/5 flashes |
| Bodies.WaitingWakesAtFirstRelease | fsm.py:89-94 | `start`/`ready` return on the first tick carrying a release |
| Bodies.BodyLights | fsm.py:63-105 | the exact light history of each body: `start` goes dark and then flashes yellow once per tick it polls; `warm` shows yellow and flashes it six times; `ready` shows red; `snap` shows blue and flashes it five times; so each body shows only its colour or dark, flashing bodies end dark and `ready` ends red |
| Bodies.BodyClearsInbox | fsm.py:60-106 | every body overwrites the inbox on entry, so the message it was entered with does not affect what it does |
| Bodies.RunBodyHandsOnLatest | fsm.py:60-106 | a body that returns hands on the classification of the latest release among the edges it handled, or, if none came, the "null" a transient body wrote |
| Machine.Step | fsm.py:152-153 | a returned iteration leaves no body polling and hands a non-empty message to the next `jump`; an unreturned one leaves `cur` alone and records the body that is still polling, which is only ever `start` or `ready` |
| Machine.Settle | fsm.py:153 | a body that returned has its reply assigned to `[cur, msg]` and leaves no body polling; one still polling keeps `cur` and is recorded as the body to resume; either way the body's inbox and lights are kept |
| Machine.StepRunsTableBody | fsm.py:127-144 | the body that runs is the table's choice, or the body still polling; a returned `cur` is that body's name, or `start` on the fallback |
| Machine.PollingResumes | fsm.py:90-96 | a body left polling goes on polling in the next iteration without re-entering: no entry light, the inbox is not cleared, it returns its own name, and returns at once on a message that arrived meanwhile |
| Machine.FallbackRestarts | fsm.py:140-143 | the fallback runs no body, changes no light and yields `['start','START']`; the edges of its pause leave `b_t0` at the latest press, or 0 after a release, whose message `main` overwrites; the next iteration enters `startState` |
| Machine.PauseKeepsPress | fsm.py:142-153 | after a too-short tap in `ready`, a press made during the pause is timed from when it landed once `startState` sees its release, and a press and release both made during the pause are lost |
| Machine.LongPressRestarts | fsm.py:132-139 | a `longPress` in the inbox enters `startState` within one `jump` from any state |
| Machine.NoPressRestarts | fsm.py:140-143 | a `noPress` runs no body, and the iteration after enters `startState` |
| Machine.NoStaleMessage | fsm.py:79-94 | a returned body hands on exactly the classification of the latest release among the edges of this iteration, or its own "null" if none came; a resumed poll loop hands on the latest release, or the message that arrived between iterations |
| Machine.StepConsumesMessage | fsm.py:60-106 | two iterations that select the same body with the same `b_t0` run it alike whatever message selected it: same body, same lights, same inbox afterwards and, once the body returns, the same next `cur` |
| Machine.ShortPressTour | fsm.py:146-153 | start, short press to `warm`, six yellow flashes to `ready` (red), which a short press ends, with each body's light sequence |
| Machine.SnapTour | fsm.py:136-138 | from `ready` a short press to `snap`, five blue flashes back to `ready`, which is left polling |
| Machine.ReadyKeepsPolling | fsm.py:84-96 | `ready` left polling at the end of one iteration returns the release of the next one as `['ready','shortPress']` instead of starting over |
| Machine.LongPressDuringWarm | fsm.py:79-82 | a long press during `warm`'s flashes replaces "null" and leads to `startState` |
| Controller.Fsm.constructor | fsm.py:146-150 | lights off, `cur` is `start`, first message "START", `b_t0` is 0 |
| Controller.Fsm.ButtonPressStart | fsm.py:109-111 | the globals become `Press` of the old globals |
| Controller.Fsm.ButtonReleased | fsm.py:114-122 | the globals become `Release` of the old globals |
| Controller.Fsm.Feed | fsm.py:124-125 | handling a tick's edges in order gives `DeliverAll` of the old globals |
| Controller.Fsm.SetLed | fsm.py:47-50 | the LEDs become the decoded pattern, which is appended to the light history |
| Controller.Fsm.FlashLed | fsm.py:52-56 | the history gains the pattern then all-off, and the LEDs end off |
| Controller.Fsm.PollFlashing | fsm.py:66-72 | the flashing poll loop ends with the globals `Await` predicts, one yellow flash per tick |
| Controller.Fsm.Wait | fsm.py:66-72 | the poll loop of a waiting body, entered or resumed, does what `PollLoop` predicts: reply, globals and lights |
| Controller.Fsm.StartState | fsm.py:60-72 | reply, globals, light history and final LEDs are those of `RunBody(Start, ...)` |
| Controller.Fsm.PollSleeping | fsm.py:90-96 | the sleeping poll loop ends with the globals `Await` predicts |
| Controller.Fsm.ReadyState | fsm.py:84-96 | reply, globals, light history and final LEDs are those of `RunBody(Ready, ...)` |
| Controller.Fsm.Pulses | fsm.py:80-81 | the flash loop ends with the globals `Pulse` predicts and `n` flashes in the history |
| Controller.Fsm.WarmState | fsm.py:74-82 | reply, globals, light history and final LEDs are those of `RunBody(Warm, ...)` |
| Controller.Fsm.SnapState | fsm.py:98-106 | reply, globals, light history and final LEDs are those of `RunBody(Snap, ...)` |
| Controller.Fsm.Pause | fsm.py:142 | the callbacks during the pause leave the globals `DeliverAll` gives for all its edges |
| Controller.Fsm.Jump | fsm.py:127-144 | on the fallback returns `['start','START']`, leaves the lights alone and handles the pause's edges; otherwise does what the table's body does |
| Controller.Fsm.Step | fsm.py:152-153 | `cur`, `msg`, `b_t0`, the body still polling and the lights become what `Machine.Step` gives |

## Left out

- gpiozero objects and callback registration (fsm.py:37-41, 124-125): the LEDs are three boolean fields and the button is explicit calls with clock readings.
- `time.time()` and every `time.sleep`: time is a `real` parameter, and a sleep takes no time in the model. The sleeps inside the body loops are the ticks of their scripts, and the fallback's 2 s pause is the script of the fallback iteration, whose edges the callbacks handle.
- Floating point: durations and thresholds are exact reals. Binary rounding of 0.1 and 1.2 is not modelled.
- `print` output throughout.
- True concurrency: a callback lands between two steps of a body, never in the middle of one. A release between `jump` reading `msg` and the body clearing it is only lost from the inbox; such a release is not scheduled separately.
- The endless `while True` loops (fsm.py:66, 90, 152): each iteration of `main` gets a finite script of ticks. A waiting body that reaches the end of its script without a message is recorded as still polling, and the next iteration resumes its poll loop instead of calling `jump`, so no iteration starts over while the program would still be inside a body. `main` as a whole is the sequence of these iterations; no lemma is stated about an unbounded run.
- Edges after a body returns are not carried over by `Machine.Step`: a transient body ignores ticks past its flash count and a waiting body ignores ticks after the one that woke it. Such edges belong in the next iteration's script.
- The placeholder "incoming message" that `msg` holds before the first body runs (fsm.py:108) is never read by `jump`. The model starts from the message "START" of the first call.
- `setLED` on patterns shorter than three characters (a Python `IndexError`): every call site passes three characters.
