# MIRAI motor link — a Dafny model

The MIRAI Python interface drives two motors on an Arduino Mega over a
serial link. A `SerialInterface` keeps an outbound command queue and an
inbound telemetry queue, and one read loop and one write loop move lines
between the queues and the port. A `MotorController` drains the inbound
queue and decodes each line. The lines are `Left - RPM:… MPH:… KPH:…`,
`Right - …`, `STATUS:<motor>:<direction>:<speed>`, `PULSES:<left>:<right>`,
`ACK:…` and `DIAG:…`. The decoded values go into two motor records, and
each line processed without an exception adds one row to a nine-column
history of at most 1000 rows. The
controller's command methods turn operator requests into wire tokens such
as `ML:120`, `BOTH:80`, `F`, `S` and `E`, and set the matching local
target or flag. `ui.py` carries its own copy of both classes. Its serial
interface also counts failed connection attempts, reconnects after a read
or write fault, and reports a port status text. `getport.py` picks the
Arduino's port from the operating system's port list.

Files:

- `Text.dfy` — the Python string operations the code relies on:
  - `startswith`, `in`, `split(sep)`, `split()`, `strip()`, `upper()`;
  - `int()`, `str(int)`, and which tokens `float()` accepts.
- `Records.dfy` — the `motor_data` and `system_status` dictionaries as
  records.
- `History.dfy` — `data_history` as a map from column name to a list,
  with the append-then-trim step. Its reference definition, `Tabulate`,
  tabulates the newest rows of the sequence of every row ever recorded.
- `Telemetry.dfy` — `_process_data`, shared by both controllers:
  - `ApplyLine` is the specification function;
  - `DecodeLine` and `ProcessLine` are the imperative decoder and update;
  - lemmas for each kind of line, including round trips from the rates and
    `PULSES:` lines the simulator prints and the `STATUS:` line the
    firmware answers `ROS:STATUS` with.
- `Commands.dfy` — the wire token of every command, a decoder that reads
  the tokens back, and the local effect of each command.
- `Serial.dfy`, `MotorControl.dfy` — `serial_interface.py` and
  `motor_controller.py` as classes with mutable fields.
- `Ui.dfy` — the two classes of `ui.py`.
- `GetPort.dfy` — `find_arduino_port` and `list_all_ports` over a port
  list passed in as an argument.

Modelling choices:

- Threads become single steps. One pass of a read, write or update loop
  is one method call.
- The port's behaviour becomes method arguments:
  - whether an open attempt succeeds (`success`, or an `outcome` in
    `ui.py`);
  - what a read finds (`Incoming`);
  - whether a write faults.
- `datetime.now()` is a natural number `now` passed in by the caller.
- Float readings are kept as the literal token (`Rate.Reading`).
- `MotorController.Valid` ties `history` to the ghost sequence `samples`
  of every row recorded, through `Tabulate(Newest(samples, maxHistory))`.
  Every state-changing method preserves this.
- `_process_data` catches every exception. A `STATUS:` or `PULSES:` line
  whose integer field does not parse therefore keeps the writes made
  before the failing `int()` and adds no history row. A rates token that
  `float()` rejects behaves the same way. `Applied.ok` is false in these
  cases.

## Model

| member | source | states |
|---|---|---|
| Text.IndexOf | mirai-python-interface/src/motor_controller.py:81 | `sub in s` by search: a found index is an occurrence with no earlier one, and `None` means no occurrence anywhere |
| Text.Split | mirai-python-interface/src/motor_controller.py:102 | `str.split(sep)` always yields at least one field |
| Text.SplitJoin | mirai-python-interface/src/motor_controller.py:102 | splitting a `:`-joined line whose fields hold no `:` gives back exactly those fields |
| Text.SplitAfterMarker | mirai-python-interface/src/motor_controller.py:82 | `(marker + body).split(marker)` is `["", body]` when the body does not contain the marker, so index 1 is the body |
| Text.SplitWhitespace | mirai-python-interface/src/motor_controller.py:82 | `str.split()` yields only non-empty tokens without whitespace |
| Text.SplitWhitespaceCons | mirai-python-interface/src/motor_controller.py:82 | `split()` of a word, a space and a rest is that word followed by the split of the rest |
| Text.SplitWhitespaceSkip | mirai-python-interface/src/motor_controller.py:82 | `split()` drops a leading whitespace character of any kind, so leading whitespace and runs of it produce no token |
| Text.SplitWhitespaceSeparated | mirai-python-interface/src/motor_controller.py:82 | a word followed by any whitespace character and a rest splits into that word followed by the split of the rest |
| Text.SplitWhitespaceBlank | mirai-python-interface/src/motor_controller.py:82 | `split()` yields no token exactly when every character is whitespace |
| Text.StripLeft | mirai-python-interface/src/serial_interface.py:100 | the leading-whitespace strip is a suffix of its input that starts with a non-space, and every character it drops is whitespace |
| Text.StripRight | mirai-python-interface/src/serial_interface.py:100 | the trailing-whitespace strip is a prefix of its input that ends with a non-space, and every character it drops is whitespace |
| Text.ParseIntToString | mirai-python-interface/src/motor_controller.py:106 | `int(str(n)) == n` for every integer `n` |
| Text.NatToStringValue | mirai-python-interface/src/motor_controller.py:144-147 | the decimal digits written for `n` have value `n` |
| Text.NoColonInInt | mirai-python-interface/src/motor_controller.py:144-147 | a formatted integer is non-empty and has no `:`, so it cannot split a `:`-separated field |
| History.Position | mirai-python-interface/src/motor_controller.py:24-34 | every history key has a place in the dictionary's key order |
| History.NewestIdempotent | mirai-python-interface/src/motor_controller.py:135-137 | trimming to the newest `max_history` twice is trimming once |
| History.TrimColumns | mirai-python-interface/src/motor_controller.py:135-137 | the `for key in data_history` loop leaves every column cut to its newest `max_history` entries (`Trimmed`) |
| History.TrimLoopStep | mirai-python-interface/src/motor_controller.py:136-137 | one pass of the loop body takes the table with the first `i` keys trimmed to the table with the first `i + 1` keys trimmed |
| History.ColumnOfAt | mirai-python-interface/src/motor_controller.py:124-132 | column `c` of the tabulated rows has one entry per row, and entry `k` is row `k`'s field `c` |
| History.ColumnOfNewest | mirai-python-interface/src/motor_controller.py:135-137 | cutting a column to its newest entries equals tabulating only the newest rows |
| History.NewestSnoc | mirai-python-interface/src/motor_controller.py:124-137 | appending after a trim and trimming again equals trimming the whole list once |
| History.AppendTrimTabulate | mirai-python-interface/src/motor_controller.py:122-137 | appending a row and trimming a table of the newest rows gives the table of the newest rows including the new one |
| History.RecordRows | mirai-python-interface/src/motor_controller.py:122-137 | a history updated by at most one recorded row stays the table of the newest recorded rows |
| History.TabulateShape | mirai-python-interface/src/motor_controller.py:134-137 | the nine columns always have equal length, the lesser of the number of rows recorded and `max_history` |
| History.AppendTrimShape | mirai-python-interface/src/motor_controller.py:124-137 | one append-and-trim keeps the columns equally long: length grows by one until `max_history` and stays there, and each column drops its oldest entry only when full |
| Telemetry.ApplyRates | mirai-python-interface/src/motor_controller.py:83-89 | the rate-token loop changes only `rpm`, `mph` and `kph` |
| Telemetry.UpdateRates | mirai-python-interface/src/motor_controller.py:83-89 | the imperative token loop computes `ApplyRates`: the last `RPM:`, `MPH:` or `KPH:` token of each kind wins, and a rejected float stops the loop with the earlier writes kept |
| Telemetry.DecodeSide | mirai-python-interface/src/motor_controller.py:81-99 | one side of a rates line, as `ApplySide` specifies it, including the `IndexError` when the marker is absent after it was matched |
| Telemetry.DecodeLine | mirai-python-interface/src/motor_controller.py:79-120 | the `if`/`elif` chain updates the records as `ApplyLine` specifies and raises exactly when `ApplyLine` reports failure |
| Telemetry.ProcessLine | mirai-python-interface/src/motor_controller.py:76-140 | `_process_data`: the records after the line, and the history gains one trimmed row holding them exactly when no exception was raised |
| Telemetry.Recorded | mirai-python-interface/src/motor_controller.py:122-132 | a line contributes at most one history row, and one exactly when it was processed without an exception |
| Telemetry.ApplyAll | mirai-python-interface/src/motor_controller.py:59-60 | a batch of lines adds at most one row per line |
| Telemetry.ApplyAllSnoc | mirai-python-interface/src/motor_controller.py:59-60 | processing a batch and then one more line equals processing the longer batch |
| Telemetry.PrefixesExclude | mirai-python-interface/src/motor_controller.py:79-118 | the line prefixes start with distinct letters, so at most one branch applies |
| Telemetry.StatusLine | mirai-python-interface/src/motor_controller.py:101-106 | a `STATUS:` line with four or more fields writes field 2 as direction and `int(field 3)` as speed on the left record when field 1 is `ML` and on the right record otherwise, and nothing else |
| Telemetry.PulsesLine | mirai-python-interface/src/motor_controller.py:108-112 | a `PULSES:` line with three or more fields sets both pulse counts to the parsed values, overwriting rather than accumulating, and nothing else |
| Telemetry.InertLine | mirai-python-interface/src/motor_controller.py:101-120 | short `STATUS`/`PULSES` lines, `ACK:`, `DIAG:` and unrecognised lines change no record, but still record a history row |
| Telemetry.RatesLineKeepsCounts | mirai-python-interface/src/motor_controller.py:79-99 | a rates line changes only `rpm`, `mph` and `kph`; speed, target, direction and pulses keep their values |
| Telemetry.RateToken | mirai-python-interface/src/motor_controller.py:85 | `float(part.split(':')[1])` reads the literal after the key |
| Telemetry.RateTokens | mirai-python-interface/src/motor_controller.py:83-89 | `RPM:a MPH:b KPH:c` sets the three rates to `a`, `b`, `c` |
| Telemetry.MarkerLine | mirai-python-interface/src/motor_controller.py:79-92 | a rates line for one side matches that side's marker, splits on it into the body, and does not contain the other side's marker |
| Telemetry.RatesTextWords | mirai-python-interface/src/motor_controller.py:82 | the body `RPM:a MPH:b KPH:c` splits into its three tokens |
| Telemetry.RatesLine | mirai-python-interface/src/serial_interface.py:92-94 | the rates line the simulator emits sets exactly the three rates of its side, and the line is recorded |
| Telemetry.StatusFields | mirai-python-interface/src/motor_controller.py:101-103 | a joined status line starts with `STATUS:` and splits back into its fields |
| Telemetry.StatusRoundTrip | mirai-python-interface/src/motor_controller.py:101-106 | `STATUS:<code>:<direction>:<speed>` sets that side's direction and speed to the printed values |
| Telemetry.PulsesRoundTrip | mirai-python-interface/src/motor_controller.py:108-112 | `PULSES:<l>:<r>` sets the pulse counts to `l` and `r` |
| Telemetry.StatusPair | mirai-python-interface/src/motor_controller.py:101-106 | status lines for `ML` then `MR` update the two records independently |
| Commands.DecodeWire | mirai-python-interface/src/motor_controller.py:143-188 | every command token reads back as the command that produced it |
| Commands.WireInjective | mirai-python-interface/src/motor_controller.py:143-188 | no two different commands share a wire token |
| Commands.DirectionIgnoresCase | mirai-python-interface/src/motor_controller.py:154-162 | `set_direction` compares the direction case-insensitively and sends only for motor `both` with `FORWARD` or `REVERSE` |
| Commands.WithTarget | mirai-python-interface/src/motor_controller.py:143-147 | a speed command sets that side's target and leaves the other side untouched |
| Commands.WithTargets | mirai-python-interface/src/motor_controller.py:149-152 | both targets set, every other field kept |
| Serial.CleanSnoc | mirai-python-interface/src/serial_interface.py:100-102 | queueing a clean line keeps every queued line clean |
| Serial.StripClean | mirai-python-interface/src/serial_interface.py:100-102 | a non-empty `strip()`ped line starts and ends with a non-space |
| Serial.SerialInterface.constructor | mirai-python-interface/src/serial_interface.py:11-18 | no port, not running, both queues empty |
| Serial.SerialInterface.Connect | mirai-python-interface/src/serial_interface.py:49-65 | simulation always succeeds without a port; otherwise success exactly when the port opens, which leaves it open |
| Serial.SerialInterface.Start | mirai-python-interface/src/serial_interface.py:67-74 | `running` becomes true exactly when `connect()` succeeds |
| Serial.SerialInterface.Stop | mirai-python-interface/src/serial_interface.py:76-80 | not running, an open port closed, and connected exactly in simulation |
| Serial.SerialInterface.SendCommand | mirai-python-interface/src/serial_interface.py:127-128 | the command joins the tail of the queue |
| Serial.SerialInterface.GetData | mirai-python-interface/src/serial_interface.py:130-133 | the oldest line leaves the queue, or `None` on an empty queue |
| Serial.SerialInterface.GetAllData | mirai-python-interface/src/serial_interface.py:135-139 | the drain loop returns exactly the queued lines in order and leaves the queue empty |
| Serial.SerialInterface.ReadStep | mirai-python-interface/src/serial_interface.py:82-102 | one read pass queues the simulated lines, or the non-empty stripped line from an open port, and nothing once stopped |
| Serial.SerialInterface.QueueStripped | mirai-python-interface/src/serial_interface.py:100-102 | the stripped line joins the queue exactly when it is non-empty, and the queue stays clean |
| Serial.SerialInterface.WriteStep | mirai-python-interface/src/serial_interface.py:110-119 | one write pass takes the head command and writes it with a newline to an open real port |
| MotorControl.MotorController.constructor | mirai-python-interface/src/motor_controller.py:9-37 | both motors stopped at zero, all flags false except `simulation_mode`, nine empty columns, `max_history` 1000 |
| MotorControl.MotorController.Start | mirai-python-interface/src/motor_controller.py:39-44 | the controller runs; the serial interface runs when its connect succeeds |
| MotorControl.MotorController.Stop | mirai-python-interface/src/motor_controller.py:46-51 | controller and interface stopped, port closed |
| MotorControl.MotorController.ProcessData | mirai-python-interface/src/motor_controller.py:76-140 | records become `ApplyLine`'s, one row is recorded exactly when no exception escaped, and the history stays the newest 1000 recorded rows |
| MotorControl.MotorController.ProcessAll | mirai-python-interface/src/motor_controller.py:59-60 | the lines are processed in queue order, as `ApplyAll` specifies |
| MotorControl.MotorController.UpdateStep | mirai-python-interface/src/motor_controller.py:53-68 | nothing once the controller is stopped; connected: drains and processes the queue; otherwise a real interface is restarted; then `serial_connected` mirrors `is_connected()` |
| MotorControl.MotorController.SetSpeed | mirai-python-interface/src/motor_controller.py:143-147 | `left`/`right` sends `ML:`/`MR:` with the speed and sets that target; any other motor name does nothing |
| MotorControl.MotorController.SetBothSpeeds | mirai-python-interface/src/motor_controller.py:149-152 | sends `BOTH:<speed>` and sets both targets |
| MotorControl.MotorController.SetDirection | mirai-python-interface/src/motor_controller.py:154-162 | sends `F`/`R` for motor `both` with a forward/reverse direction in any case, nothing otherwise |
| MotorControl.MotorController.StopMotors | mirai-python-interface/src/motor_controller.py:164-167 | sends `S` and zeroes both targets |
| MotorControl.MotorController.CoastMotors | mirai-python-interface/src/motor_controller.py:169-172 | sends `COAST` and zeroes both targets |
| MotorControl.MotorController.EmergencyStop | mirai-python-interface/src/motor_controller.py:174-176 | sends `E` and sets `emergency_stop` |
| MotorControl.MotorController.ClearEmergency | mirai-python-interface/src/motor_controller.py:178-180 | sends `C` and clears `emergency_stop` |
| MotorControl.MotorController.ActivateSoftBrake | mirai-python-interface/src/motor_controller.py:182-184 | sends `SOFTBRAKE` and sets `braking` |
| MotorControl.MotorController.ActivateHardBrake | mirai-python-interface/src/motor_controller.py:186-188 | sends `HARDBRAKE` and sets `braking` |
| MotorControl.MotorController.SendPidCommand | mirai-python-interface/src/motor_controller.py:235-243 | as written: the command is queued, then `AttributeError` escapes |
| MotorControl.MotorController.SendPidCommandLogged | mirai-python-interface/src/motor_controller.py:235-243 | as intended: the command is queued and `True` returned |
| MotorControl.MotorController.GetStatus | mirai-python-interface/src/motor_controller.py:203-208 | the current records, flags and timestamp |
| MotorControl.MotorController.GetHistory | mirai-python-interface/src/motor_controller.py:210-211 | nine columns of equal length, at most 1000, holding the fields of the newest recorded rows in order |
| Ui.SerialInterface.constructor | mirai-python-interface/src/ui.py:38-46 | no port, not running, empty queues, no failed attempts |
| Ui.SerialInterface.Connect | mirai-python-interface/src/ui.py:67-92 | simulation succeeds at warning level; an open resets the counter; a `SerialException` bumps it and is a warning up to 5 attempts and an error beyond; any other failure is an error |
| Ui.SerialInterface.Start | mirai-python-interface/src/ui.py:94-103 | `running` becomes true exactly when `connect()` succeeds, with the counter updated as `connect()` does |
| Ui.SerialInterface.Stop | mirai-python-interface/src/ui.py:105-112 | not running; an open port closed, any other link kept |
| Ui.SerialInterface.HandleSerialError | mirai-python-interface/src/ui.py:173-179 | a real interface is stopped and restarted: it runs and is open afterwards exactly when the reconnect opens the port, an open port is otherwise left closed, and the counter follows `connect()`; nothing changes in simulation |
| Ui.SerialInterface.SendCommand | mirai-python-interface/src/ui.py:181-188 | the command joins the queue and `True` is returned |
| Ui.SerialInterface.GetData | mirai-python-interface/src/ui.py:190-198 | the oldest line, or `None` on an empty queue |
| Ui.SerialInterface.GetAllData | mirai-python-interface/src/ui.py:200-208 | the drain loop returns exactly the queued lines in order and leaves the queue empty |
| Ui.SerialInterface.ReadStep | mirai-python-interface/src/ui.py:114-148 | one read pass: nothing once stopped; simulated lines queued; a port line queued when non-empty after `strip()`; link, running and counter unchanged except on a read fault of an open port, which reconnects (running and open exactly when the reopen succeeds, counter as `connect()` sets it) |
| Ui.SerialInterface.ReadPort | mirai-python-interface/src/ui.py:132-145 | the real-port branch: an open port queues a waiting line's non-empty stripped text; a read fault reconnects, leaving the interface running and open exactly when the port reopens and the counter as `connect()` sets it; otherwise link, running and counter are kept |
| Ui.SerialInterface.QueueStripped | mirai-python-interface/src/ui.py:136-138 | the stripped line joins the queue exactly when it is non-empty, and the queue stays clean |
| Ui.SerialInterface.WriteStep | mirai-python-interface/src/ui.py:150-171 | one write pass: nothing when stopped or empty; otherwise the head leaves the queue and is written with a newline to an open real port; a write fault loses it and reconnects (running and open exactly when the reopen succeeds, counter as `connect()` sets it); every other pass keeps link, running and counter |
| Ui.SerialInterface.PortStatus | mirai-python-interface/src/ui.py:216-223 | each of the three texts is returned exactly in its own case |
| Ui.MotorController.constructor | mirai-python-interface/src/ui.py:226-254 | the same initial state as `motor_controller.py` |
| Ui.MotorController.Start | mirai-python-interface/src/ui.py:256-261 | the controller runs; the interface runs when its connect succeeds, and its link and counter are those `connect()` leaves |
| Ui.MotorController.Stop | mirai-python-interface/src/ui.py:263-268 | controller and interface stopped; an open port closed, any other link kept |
| Ui.MotorController.ProcessData | mirai-python-interface/src/ui.py:293-357 | records become `ApplyLine`'s, one row per line processed without an exception, history the newest 1000 rows |
| Ui.MotorController.ProcessAll | mirai-python-interface/src/ui.py:276-277 | lines processed in queue order, as `ApplyAll` specifies |
| Ui.MotorController.UpdateStep | mirai-python-interface/src/ui.py:270-285 | nothing once the controller is stopped; otherwise drains and processes the queue when connected, keeping the link, running flag and counter, or else restarts a real interface with the link and counter `connect()` leaves; `serial_connected` refreshed |
| Ui.MotorController.SetSpeed | mirai-python-interface/src/ui.py:360-364 | `ML:`/`MR:` token and that side's target, nothing for other names |
| Ui.MotorController.SetBothSpeeds | mirai-python-interface/src/ui.py:366-369 | `BOTH:` token and both targets |
| Ui.MotorController.SetDirection | mirai-python-interface/src/ui.py:371-379 | `F`/`R` only for `both` with a forward/reverse direction in any case |
| Ui.MotorController.StopMotors | mirai-python-interface/src/ui.py:381-384 | `S` and both targets zero |
| Ui.MotorController.CoastMotors | mirai-python-interface/src/ui.py:386-389 | `COAST` and both targets zero |
| Ui.MotorController.EmergencyStop | mirai-python-interface/src/ui.py:391-393 | `E` and `emergency_stop` set |
| Ui.MotorController.ClearEmergency | mirai-python-interface/src/ui.py:395-397 | `C` and `emergency_stop` cleared |
| Ui.MotorController.ActivateSoftBrake | mirai-python-interface/src/ui.py:399-401 | `SOFTBRAKE` and `braking` set |
| Ui.MotorController.ActivateHardBrake | mirai-python-interface/src/ui.py:403-405 | `HARDBRAKE` and `braking` set |
| Ui.MotorController.GetStatus | mirai-python-interface/src/ui.py:420-425 | the current records, flags and timestamp |
| Ui.MotorController.GetHistory | mirai-python-interface/src/ui.py:427-428 | equal columns of at most 1000 newest rows |
| GetPort.IsArduinoMarkers | mirai-python-interface/src/getport.py:8-11 | a port matches exactly when its description contains one of `Arduino`, `USB Serial`, `CH340`, `FT232` |
| GetPort.FirstArduino | mirai-python-interface/src/getport.py:7-13 | the index found matches and no earlier port does; `None` when none from the start point does |
| GetPort.FindArduinoPort | mirai-python-interface/src/getport.py:4-13 | `None` exactly when no port matches; otherwise the device of a matching port with no matching port before it |
| GetPort.FindArduinoPortFirst | mirai-python-interface/src/getport.py:7-12 | the first matching port wins whatever follows it |
| GetPort.FindArduinoPortAppend | mirai-python-interface/src/getport.py:7-13 | ports appended after a match do not change the answer; without a match, only the appended ports decide |
| GetPort.AppendAfterNoMatch | mirai-python-interface/src/getport.py:7-13 | ports before the first match do not affect the result |
| GetPort.ListAllPorts | mirai-python-interface/src/getport.py:16-19 | one `{device, description}` dictionary per port, in order |
| GetPort.FoundIsListed | mirai-python-interface/src/getport.py:4-19 | the device found appears in the listing with a matching description |

## Left out

- Threads, `time.sleep`, the reconnect tick and `join` timeouts: each loop is modelled as one step per method call.
- pyserial: the port is reduced to open, closed or absent, plus per-call outcomes. Baud rate, timeouts and `write_timeout` are not modelled.
- UTF-8 decoding of incoming bytes, and the exception a bad byte would raise. A received line is already text here.
- The simulator's random numbers and float formatting. `ReadStep` takes the generated lines as an argument. `Telemetry.RatesLine` covers lines of the shape the simulator prints.
- Float conversion. A reading is kept as its literal token. `float()` is modelled as accepting an optional sign, digits and at most one point, so `inf`, `nan`, exponents, underscores between digits (`1_0`), non-ASCII digits and surrounding spaces are not modelled.
- `int()` is modelled as accepting an optional sign and ASCII digits. Python also accepts surrounding whitespace, underscores and non-ASCII digits.
- `str.upper()` is modelled for ASCII letters only.
- MotorControl.MotorController.SetSpeed, SetBothSpeeds and their `ui.py` copies take an integer `speed`. The source formats whatever value the caller passes (a float or a string from a web request) into the token and stores it as the target unchanged; other value types are not modelled.
- Loading the YAML configuration, the logger set-up and every log message. The level a `ui.py` connect attempt is logged at is kept.
- Timestamps are a natural number `now` supplied by the caller. One value stamps every line of an update step, where the source reads the clock per line.
- `save_data` (JSON file export) and `print_diagnostics` (console output).
- Aliasing: `get_status` and `get_history` return the live dictionaries in the source, and copies here.
- `last_heartbeat` and `ros_connected` are never changed by this code, and are kept constant.
- Serial.SerialInterface.Connect: an exception other than `SerialException` escapes `connect()` in `serial_interface.py`. It is not modelled.
- An exception from `close()` in `stop()` is not modelled.
- Serial.SerialInterface.ReadStep: on a closed port, `in_waiting` raises and the error is logged. The model treats this as a pass that reads nothing, since the only effect is the log line.
- The unhandled-exception branches of the loops (`except Exception`) only log and sleep, and are not modelled.
- `_process_data` adds a history row only when it raises no exception, not for every dequeued line, and a parsed `PULSES:` value overwrites the count, so counts can go down. The model follows the code in both cases, and promises neither a row per line nor non-decreasing counts.
- Flask, `app.py`, `main.py`, the data visualizer and the Arduino firmware are not part of this model. `Commands.Decode` is the inverse of the wire format, not the firmware's parser, which also trims and upper-cases a command and accepts only unsigned speeds up to 255.

## Findings

| source | as written | input that shows it | evidently intended | confidence | as-written member | corrected member |
|---|---|---|---|---|---|---|
| mirai-python-interface/src/motor_controller.py:239-242 | `send_pid_command` logs through `self.logger`. `MotorController` never defines that attribute. The `AttributeError` is caught, and the handler raises a second one from `self.logger.error`. | any call, e.g. `send_pid_command("P:1.0")`. The command is queued, then the call raises instead of returning `True`. | queue the command, log it, return `True` | medium (not executed) | MotorControl.MotorController.SendPidCommand | MotorControl.MotorController.SendPidCommandLogged |
