# cob_light light controller, modelled in Dafny

This project models the `LightControl` node of the Care-O-bot `cob_light`
driver. The node holds a current colour and turns colour commands and mode
requests into ASCII lines on the serial port of an RGB LED microcontroller.

- The colour command handler (`LightCallback`) stores the colour. Outside
  simulated mode it also runs `setRGB` on it.
- `setRGB` cancels any breathing timer. It then checks r, g and b against
  the upper bound 1 only. An accepted colour is sent as one line
  `"R G B\n\r"`, with each value `int((1 - c) * 999)`.
- The mode handler (`ModeCallback`) first stores and sends the request's
  colour, whatever the mode is.
  - BREATH resets the phase to 0.0 and starts the breathing timer.
  - STATIC and FLASH leave the timer cancelled.
  - Any other code is meant to be answered with error_type -1 (line 153
    raises first).
- The breathing tick (`BreathTimerEvent`) advances the phase by 0.01 and
  wraps it to 0.0 on reaching 2.0. It sends `999 - |c * fV|` per channel
  when the port is open.

Files:

- `wire.dfy`, module `Wire`. It holds the serial line format: Python's
  `int()` on floats (truncation toward zero), `str()` on integers, and the
  line itself. A parser for the line is its partner, with a proved round
  trip.
- `cob_light.dfy`, module `CobLight`. It holds the message datatypes, the
  LedMode enumeration, the scaling and breathing functions, and the class
  `LightControl`. The class fields mirror the node's state:
  - `color`;
  - `simMode`;
  - `serOpen`, which stands for `ser is not None`;
  - `timerActive`, which stands for `handle_timer is not None`;
  - `phase`, which stands for `inc_timer`;
  - a ghost log `written` of every serial line.

`Valid()` is the class invariant. It says that the port is open exactly when
the node is not simulating, and that `0 <= phase < 2.0`.

Notes on the code as written:

- The STATIC and FLASH branches set error_type 0 only inside a check for a
  live timer. `setRGB` has just cleared the timer, so that check is never
  true. The response keeps its defaults, which are the same values (0, "").
- `ModeCallback` stores the request's colour even when `setRGB` rejects it.
  A later breathing tick then drives the hardware with that out-of-range
  colour. So the breathing values can be negative, and `Truncate` models
  `int()` toward zero rather than as floor.
- In simulated mode the port is `None`. `ModeCallback` calls `setRGB`
  without a simulated-mode check, so for an accepted colour it would call
  `write` on `None`. `SetRGB` and `ModeCallback` therefore require
  `serOpen || !InRange(color)`. That is exactly the condition under which
  the source does not crash at the write on line 122. Rejected colours are
  fine in simulated mode.
- The breathing amplitude `(exp(sin(phase*pi)) - 0.36787944) * 425.03360505`
  peaks at about 999.0000005, slightly above 999. The integers sent still
  lie in [0, 999], because `int()` truncates toward zero.
  `BreathLevelsInRange` proves this for any amplitude in [0, 1000).
- Lines 154-155 build an error response, but line 153 raises NameError
  first. `ModeCallback` returns the response those lines build, and
  `ModeReplyAsWritten` models the crash: see "## Findings".

## Model

| member | source | states |
|---|---|---|
| Wire.Truncate | cob_light/ros/src/cob_light.py:122 | Python `int()` on a float: for x >= 0 the result is the largest integer not above x; for x < 0 the smallest integer not below x (toward zero) |
| Wire.DecimalRoundTrip | cob_light/ros/src/cob_light.py:122 | the decimal rendering `str()` of every integer, sign included, parses back to that integer |
| Wire.LineRoundTrip | cob_light/ros/src/cob_light.py:122 | a line of three integers joined by single spaces and ended by "\n\r" parses back to exactly those three integers |
| Wire.LineInjective | cob_light/ros/src/cob_light.py:173 | two different triples of channel values never produce the same serial line |
| CobLight.ModeOf | cob_light/ros/src/cob_light.py:66-67 | a mode code names a LedMode exactly when it is 0, 1 or 2, and that mode's code is the given one |
| CobLight.ModeCodeRoundTrip | cob_light/ros/src/cob_light.py:66-67 | STATIC, BREATH and FLASH survive their integer encoding |
| CobLight.Level | cob_light/ros/src/cob_light.py:116-120 | the scaled value of an accepted channel (c <= 1) is never negative; it is at most 999 for c in [0, 1], 0 for c = 1, 999 for c = 0, and at least 999 for a negative c (no clamping) |
| CobLight.LevelAntitone | cob_light/ros/src/cob_light.py:118-120 | the inverted scale: a brighter channel never gets a larger hardware value |
| CobLight.SetRGBOutput | cob_light/ros/src/cob_light.py:116-124 | setRGB sends at most one line; it sends one exactly when r, g and b are all <= 1; the line carries the three scaled values, each >= 0 |
| CobLight.PureRedLine | cob_light/ros/src/cob_light.py:116-122 | colour (1, 0, 0, 1) is sent as the line "0 999 999\n\r" |
| CobLight.BreathChannel | cob_light/ros/src/cob_light.py:166-171 | a breathing channel value `999 - |c * fV|` never exceeds 999 |
| CobLight.BreathChannelAbove | cob_light/ros/src/cob_light.py:166-173 | for c in [0, 1] and fV in [0, 1000) a breathing channel lies in (-1, 999] and its truncation in [0, 999] |
| CobLight.BreathLevelsInRange | cob_light/ros/src/cob_light.py:162-173 | for a colour in [0, 1] and an amplitude in [0, 1000), all three integers a breathing tick sends lie in [0, 999] |
| CobLight.AdvancePhase | cob_light/ros/src/cob_light.py:163-165 | the phase advance keeps the phase in [0, 2.0); the new phase is the old one plus 0.01 or 0.0, and 0.0 exactly when the sum reaches 2.0 |
| CobLight.ModeResponse | cob_light/ros/src/cob_light.py:126-156 | the response keeps its defaults (0, "") exactly for modes 0, 1 and 2; any other code gives error_type -1 with "Unsupported Led Mode requested" |
| CobLight.ModeReplyAsWritten | cob_light/ros/src/cob_light.py:126-156 | the handler as written: it raises NameError exactly for a mode code outside 0, 1 and 2; otherwise it replies with the default response (0, "") |
| CobLight.ModeReplyAsWrittenOnSupported | cob_light/ros/src/cob_light.py:130-151 | on the three supported modes the handler as written returns the intended response |
| CobLight.UnsupportedModeRaises | cob_light/ros/src/cob_light.py:152-155 | as written, mode 5 raises NameError instead of returning the error response (-1, "Unsupported Led Mode requested") |
| CobLight.LightControl.constructor | cob_light/ros/src/cob_light.py:70-107 | initial state: colour green with full opacity, no timer, phase 0.0, nothing written; simulated mode exactly when the port could not be opened |
| CobLight.LightControl.SetRGB | cob_light/ros/src/cob_light.py:109-124 | the timer is cancelled on both paths; the log grows by the setRGB output of the colour and by nothing else; colour, phase and mode are untouched |
| CobLight.LightControl.ModeCallback | cob_light/ros/src/cob_light.py:126-156 | for every request the colour becomes the request's colour and the setRGB output is sent; afterwards a timer runs exactly for BREATH; BREATH sets the phase to 0.0, other modes leave it unchanged; the response is ModeResponse of the mode; the invariant is kept |
| CobLight.LightControl.BreathTimerEvent | cob_light/ros/src/cob_light.py:158-175 | the phase advances by AdvancePhase (so it stays in [0, 2.0)); one line of breathing values for the current colour is sent when the port is open, none in simulated mode; colour and timer are unchanged |
| CobLight.LightControl.LightCallback | cob_light/ros/src/cob_light.py:204-208 | the colour is always stored; outside simulated mode the timer is cancelled and the setRGB output is sent; in simulated mode timer and serial log are unchanged |

## Findings

| source | as written | input that shows it | evidently intended | confidence | as-written member | corrected member |
|---|---|---|---|---|---|---|
| cob_light/ros/src/cob_light.py:153 | the warning for an unsupported mode formats the name `mode`, which is not defined in `ModeCallback`, so NameError is raised before the error response is built | a LightMode request with mode 5 | reply with error_type -1 and error_msg "Unsupported Led Mode requested" | high, not executed | CobLight.UnsupportedModeRaises | CobLight.ModeResponse |

`CobLight.LightControl.ModeCallback` returns the corrected response.
`ModeReplyAsWritten` models the handler as written. The colour store and the
`setRGB` call have already happened before the exception in both versions.

## Left out

- ROS plumbing is left out: publishers, the subscriber, the service, logging and the 10 Hz main loop (lines 210-223).
- Concurrency is left out: in rospy the timer, subscriber and service callbacks run on separate threads, and `shutdown()` on the timer (line 112) does not wait for a running tick. Each callback is modelled as atomic, so a tick overlapping a mode change or colour command is not modelled.
- `rospy.Timer` scheduling is reduced to the flag `timerActive`. The model does not say when ticks fire.
- Serial I/O is reduced to appending the line to the ghost log `written`. Opening the port and write failures are not modelled.
- Constructor parameter lookup and the port opening (lines 85-107) are left out. Their outcome is the constructor argument `serialOpened`. This leaves out the hard-coded device path (line 102) and the `get_param` calls after a failed `has_param` (lines 90, 96): those calls have no default, so a missing parameter raises KeyError and the node never starts. Simulated mode is therefore reached only when opening the port raises SerialException (lines 103-105), which is what `serialOpened = false` stands for.
- The breathing amplitude `exp(sin(phase*pi))` (line 162) is a parameter `fV` of `BreathTimerEvent`, because it is transcendental floating-point arithmetic. The dead first assignment of `fV` (line 159) is left out too.
- `publish_marker` (lines 178-202) is left out. It only copies constants and the current colour into a marker message.
- Floating-point rounding is left out: channels and phase are exact reals. For this reason no claim is made that the phase returns to 0.0 after exactly 200 ticks. Only the [0, 2.0) invariant is proved.
- Log messages are left out, including the warning for a rejected colour and the logged breathing values in simulated mode.
- CobLight.LightControl.ModeCallback: requires `serOpen || !InRange(req.color)`, so the crash path in simulated mode is excluded: line 129 calls `setRGB`, whose line 122 calls `write` on `ser = None` for an accepted colour, raising AttributeError after the colour is stored. The model does not describe the state or reply after that crash. `CobLight.LightControl.SetRGB` carries the same requires for the same reason.
- CobLight.BreathChannel: states only the upper bound 999 in its own contract. The lower bound needs the colour and amplitude ranges and is stated by BreathChannelAbove and BreathLevelsInRange.
