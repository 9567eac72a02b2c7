# Tractor dashboard: serial accumulator, telemetry store and control state

This is a Dafny model of the logic at the heart of a small tractor telemetry
system, which has three tiers:

- **Firmware (two STM32 builds).** A USART1 receive interrupt collects bytes
  into an 8-byte buffer `buffer_str`.
  - The letters `V`, `S` and `E` commit the buffer to the velocity, RPM and
    gear slots; `V` also sets `velocity` to the buffer's `atoi`.
  - Any other byte is appended at `index_k`. When seven bytes are already
    pending, the buffer is wiped instead and the byte is dropped.
  - A PWM update then caps `velocity` and hands it to every PWM channel. The
    FreeRTOS build caps at 50 and drives four channels; the bare-metal build
    caps at 100 and drives one channel.
  - The two interrupt handlers are identical, so one machine parameterised by
    `Variant` models both builds.
- **Backend (Python).** `TractorBackend` keeps:
  - the latest reading;
  - a history of readings capped at 1000;
  - an unbounded log of CSV rows. Each row merges a reading with the control
    record current at the time;
  - the control record, which the control endpoint replaces.

  The model also covers its endpoints' answers, including the 404 cases.
- **Dashboard (React page).** Pressing the pedal releases the brake, and
  pressing the brake releases the pedal. The page also keeps two mode flags and
  a chart window of the newest 50 points pushed over the WebSocket.

The modules are:

- `CText` (`ctext.dfy`): bytes, C strings and `atoi`.
- `SerialAccumulator` (`accumulator.dfy`):
  - the handler as a pure step function `Step`, and `Run` over a byte stream;
  - the invariant the handler keeps;
  - the class `Accumulator`, which holds the four buffers as arrays and
    updates them in place. Its methods are proved equal to `Step` and to the
    clamp.
- `Wrappers`, `Seqs` and `PyDict`: optional values, "newest n" windows and
  Python slices, and Python's insertion-ordered dicts with `{**a, **b}`.
- `TelemetryBackend` (`backend.dfy`): the record builder, the CSV row, the
  bounded history and the class `TractorBackend`.
- `Dashboard` (`dashboard.dfy`): the class `DashboardState` with the pedal,
  brake, mode and message handlers, and the chart window.

## Model

| member | source | states |
|---|---|---|
| CText.CStr | Stm32FreeRtos/Core/Src/main.c:154 | the C string a buffer holds is its NUL-free prefix, ended by the first NUL or by the buffer's end |
| CText.Atoi | Stm32FreeRtos/Core/Src/main.c:154 | `atoi` reads optional white space, an optional sign and leading digits; no digits read as 0, and its magnitude is below 10 to the input's length |
| CText.AtoiFitsInt32 | Stm32FreeRtos/Core/Src/main.c:21-26 | `atoi` of at most nine bytes fits a 32-bit `int`, so the 7-character buffer can never overflow `velocity` |
| CText.AtoiOfDigits | Stm32FreeRtos/Core/Src/main.c:154 | a buffer of decimal digits reads as the number the digits spell |
| SerialAccumulator.Clamp | Stm32FreeRtos/Core/Src/main.c:124-126 | the result never exceeds the bound; a value at or below the bound, negatives included, passes through unchanged |
| SerialAccumulator.ClampIdempotent | Stm32Project/Src/main.c:138-140 | clamping a second time with nothing received in between changes nothing |
| SerialAccumulator.Step | Stm32FreeRtos/Core/Src/main.c:148-184 | with RXNE clear the handler changes nothing, whatever the byte and state; one interrupt keeps the handler's invariant: `index_k` in 0..7, every byte from `index_k` on (so `buffer_str[7]`) NUL, no terminator letter stored, committed slots NUL-terminated, `velocity` within `int` |
| SerialAccumulator.Run | Stm32Project/Src/main.c:36-73 | the invariant holds after any stream of received bytes |
| SerialAccumulator.InitialInv | Stm32FreeRtos/Core/Src/main.c:19-27 | the zero-initialised globals satisfy the invariant |
| SerialAccumulator.CommitKeepsInv | Stm32FreeRtos/Core/Src/main.c:155-157 | the buffer is always a valid slot to copy, and clearing it restores the invariant |
| SerialAccumulator.StoreKeepsInv | Stm32FreeRtos/Core/Src/main.c:173-176 | storing an ordinary byte below capacity keeps the invariant |
| SerialAccumulator.StepOrdinary | Stm32FreeRtos/Core/Src/main.c:149-176 | an ordinary byte below capacity lands at `buffer_str[index_k]`, `index_k` grows by one, and no other byte, slot or `velocity` changes |
| SerialAccumulator.StepOverflow | Stm32Project/Src/main.c:66-70 | an ordinary byte at `index_k == 7` zeroes the buffer, resets the index and is dropped; the slots and `velocity` stay |
| SerialAccumulator.CommitVelocity | Stm32FreeRtos/Core/Src/main.c:152-158 | `V` copies the old buffer to `buffer_vel`, sets `velocity` to its `atoi` and clears the buffer, leaving the RPM and gear slots alone |
| SerialAccumulator.CommitText | Stm32Project/Src/main.c:48-59 | `S` and `E` copy the buffer to `buffer_rpm` and `buffer_gear` and clear it; nothing else changes, `velocity` included |
| SerialAccumulator.OrdinaryRun | Stm32FreeRtos/Core/Src/main.c:171-181 | for a run of ordinary bytes from an empty buffer, `index_k` is the run's length mod 8 and the pending text is the run's tail after the last multiple of 8; slots and `velocity` never move |
| SerialAccumulator.NinthByteStartsFresh | Stm32FreeRtos/Core/Src/main.c:177-181 | the eighth byte of an unterminated run wipes the buffer, so the ninth is stored at index 0 |
| SerialAccumulator.Padded | Stm32FreeRtos/Core/Src/main.c:21 | a text NUL-padded to a whole buffer keeps the text as its prefix and NULs after it |
| SerialAccumulator.CStrOfPadded | Stm32FreeRtos/Core/Src/main.c:154 | a NUL-free text reads back from its padded buffer as itself |
| SerialAccumulator.CommandCommits | Stm32Project/Src/main.c:36-73 | a command of up to 7 ordinary bytes plus its terminator, sent to an empty buffer, changes exactly one slot to the padded text (and, for `V`, `velocity` to its `atoi`), leaving the buffer empty |
| SerialAccumulator.CommandIdempotent | Stm32Project/Src/main.c:36-73 | sending the same complete command twice leaves every global as sending it once |
| SerialAccumulator.DoubleVelocityCommit | Stm32FreeRtos/Core/Src/main.c:152-158 | `V` twice in a row commits an empty buffer: `velocity` becomes 0 whatever came before |
| SerialAccumulator.VelocityCommand | Stm32FreeRtos/Core/Src/main.c:152-158 | a NUL-free velocity command sets `velocity` to `atoi` of exactly the text sent, and `buffer_vel` shows that text |
| SerialAccumulator.FiftyV | Stm32FreeRtos/Core/Src/main.c:152-158 | the bytes "50V" into an empty buffer set `velocity` to 50 and `buffer_vel` to "50" |
| SerialAccumulator.GearN3 | Stm32FreeRtos/Core/Src/main.c:165-170 | the bytes "N3E" commit the gear text "N3" and leave `velocity` alone |
| SerialAccumulator.Memset | Stm32FreeRtos/Core/Src/main.c:156 | all 8 bytes of the buffer become NUL |
| SerialAccumulator.Memcpy | Stm32FreeRtos/Core/Src/main.c:155 | the destination becomes a copy of the source |
| SerialAccumulator.Accumulator.constructor | Stm32Project/Src/main.c:23-31 | every global starts zero, which satisfies the invariant |
| SerialAccumulator.Accumulator.ReceiveInterrupt | Stm32FreeRtos/Core/Src/main.c:148-184 | the in-place handler on the four arrays leaves exactly the state `Step` gives, and keeps the invariant |
| SerialAccumulator.Accumulator.Commit | Stm32Project/Src/main.c:41-59 | the `V`, `S` and `E` branches, in place, leave exactly the state `Step` gives |
| SerialAccumulator.Accumulator.Store | Stm32Project/Src/main.c:60-71 | the branch for any other byte, in place, leaves exactly the state `Step` gives |
| SerialAccumulator.Accumulator.SetPwm | Stm32FreeRtos/Core/Src/main.c:124-130 | `velocity` becomes min(old, bound) with 50 for the RTOS build and 100 for the bare-metal build; every channel (4 or 1) receives that value; the buffers are untouched |
| Seqs.LastN | dashboard/app/page.tsx:75 | the newest n elements, in order, and as many as there are up to n |
| Seqs.LastNAppend | PythonApi/main.py:152 | updating a window one element at a time gives the window of the whole stream |
| Seqs.SliceFrom | PythonApi/main.py:264 | Python's `s[start:]`: a non-negative start drops that many leading elements, a negative start keeps the newest `-start` |
| PyDict.Keys | PythonApi/main.py:295 | one key per entry, in insertion order |
| PyDict.GetNone | PythonApi/main.py:155-158 | `get` finds nothing exactly when the key is absent |
| PyDict.GetAt | PythonApi/main.py:155-158 | `get` returns the value of the entry holding the key |
| PyDict.PutSpec | PythonApi/main.py:155-158 | assigning a key changes that key's value only and adds the key at the end if it was new |
| PyDict.PutAppends | PythonApi/main.py:155-158 | assigning a new key appends the entry |
| PyDict.PutReplaces | PythonApi/main.py:155-158 | assigning an existing key replaces its entry where it stands |
| PyDict.PutUnique | PythonApi/main.py:155-158 | assignment never creates a duplicate key |
| PyDict.MergeSpec | PythonApi/main.py:155-158 | `{**a, **b}` keeps a's keys in place first, holds exactly the keys of both, and takes b's value wherever b has the key |
| TelemetryBackend.Trunc | PythonApi/main.py:146 | `int()` of a number truncates toward zero |
| TelemetryBackend.BuildRecord | PythonApi/main.py:143-149 | a record is built exactly when no field fails to convert; missing fields read as 0, velocity and gear are kept, rpm is truncated toward zero, and the timestamp is the arrival time |
| TelemetryBackend.MergedRow | PythonApi/main.py:155-158 | the merged row is the reading's four entries, with the control's timestamp in the reading's timestamp place, followed by mode, pedal and brake |
| TelemetryBackend.CsvRowLayout | PythonApi/main.py:155-158 | a CSV row's columns are velocity, rpm, gear, timestamp, mode, pedal, brake; the reading's fields carry the reading, the control's fields the control, and timestamp carries the control's time |
| TelemetryBackend.CsvLog | PythonApi/main.py:159 | the CSV log holds one row per accepted reading |
| TelemetryBackend.CsvLogAppend | PythonApi/main.py:155-159 | logging one more reading appends exactly its row and keeps every earlier row |
| TelemetryBackend.DequeAppend | PythonApi/main.py:60 | appending keeps at most 1000 records, ends with the new record, and a full history loses its oldest |
| TelemetryBackend.DequeKeepsNewest | PythonApi/main.py:152 | the history is always the newest 1000 readings ever accepted |
| TelemetryBackend.TractorBackend.constructor | PythonApi/main.py:58-78 | no data, empty history and log, control in dashboard mode with nothing pressed, a client that is not yet connected |
| TelemetryBackend.TractorBackend.ProcessTractorData | PythonApi/main.py:141-176 | a payload that converts becomes the current reading and adds exactly one history entry and one CSV row with the current control; one that fails changes nothing; the store stays consistent: the history is the newest 1000 readings ever accepted, and CSV row i merges reading i with the control current at its arrival |
| TelemetryBackend.TractorBackend.SendControlCommand | PythonApi/main.py:268-281 | the control record becomes the request's mode, pedal and brake with the request time; it is published exactly when a client exists and is connected (the guard at PythonApi/main.py:199) |
| TelemetryBackend.TractorBackend.GetStatus | PythonApi/main.py:238-245 | reports the broker flag, `data_points` as the CSV log's length (never less than the history's), and the latest reading's timestamp or None |
| TelemetryBackend.TractorBackend.GetCurrentData | PythonApi/main.py:247-257 | 404 exactly while no reading has arrived; otherwise the reading, the control and the broker flag |
| TelemetryBackend.TractorBackend.GetHistoricalData | PythonApi/main.py:259-266 | a positive limit gives the newest `limit` records in arrival order, 0 the whole history, a negative limit the history without its oldest `-limit`; the total is the history's length |
| TelemetryBackend.TractorBackend.ExportCsv | PythonApi/main.py:283-298 | 404 exactly while the CSV log is empty; otherwise the header is the seven columns and the rows are the whole log |
| Dashboard.ModeName | dashboard/app/page.tsx:158 | a command names dashboard mode exactly when the dashboard flag is set, and manual mode otherwise |
| Dashboard.AppendWindow | dashboard/app/page.tsx:72-76 | the window has at most 50 points and ends with the new point, preceded by the newest earlier points in order |
| Dashboard.FeedKeepsNewest | dashboard/app/page.tsx:72-76 | after any number of data messages, the chart holds exactly the newest 50 points in arrival order |
| Dashboard.DashboardState.constructor | dashboard/app/page.tsx:8-15 | dashboard mode, nothing pressed, no data, no history, not connected |
| Dashboard.DashboardState.HandleModeSwitch | dashboard/app/page.tsx:139-149 | exactly one mode flag is set, the dashboard flag exactly when "dashboard" was asked for; the command carries the requested mode and the unchanged pedal and brake |
| Dashboard.DashboardState.HandlePedal | dashboard/app/page.tsx:152-162 | pressing sets the pedal and releases the brake; releasing leaves the brake; pedal and brake are never both on afterwards; the command carries the new pair |
| Dashboard.DashboardState.HandleBrake | dashboard/app/page.tsx:164-174 | pressing sets the brake and releases the pedal; releasing leaves the pedal; pedal and brake are never both on afterwards; the command carries the new pair |
| Dashboard.DashboardState.OnMessage | dashboard/app/page.tsx:51-81 | an unparsable message, one of another type, or one without data changes nothing; a data message shows the reading, copies the broker flag and any control record (an unknown mode clears both flags), and pushes one point into the 50-point window |

## Left out

- Peripheral bring-up, the UART send and receive helpers, the ADC and its calibration, the LCD and `printf` output: these are register writes and I/O with no state the handler reads.
- `update_cycle` is an external driver whose source is not part of this model. `SetPwm` returns the values it would receive, one per channel.
- Concurrency: the FreeRTOS tasks and their delays, and the handler interrupting the PWM task halfway. Each handler call and each PWM update is one atomic step.
- SerialAccumulator.Accumulator.SetPwm: models one pass of `StartTask4`'s endless loop (or one `Set_pwm` call), not the loop itself.
- A received NUL byte is stored like any other ordinary byte, as the C does. The committed C string then ends early, so `VelocityCommand` requires NUL-free text.
- CText.Atoi: models decimal digits, sign and leading white space; `atoi`'s behaviour on overflow cannot arise from a 7-byte buffer and is not modelled.
- Backend I/O: the MQTT client, its callbacks and simulation thread, WebSocket broadcast and its scheduling, FastAPI routing and writing the CSV file. The broker flag and the existence of a client are plain fields that only those callbacks would change.
- TelemetryBackend.TractorBackend.GetHistoricalData: takes the limit as an argument; a request without `limit` behaves as `GetHistoricalData(50)`, the default the endpoint declares.
- The 500 answer of the CSV export (a file that cannot be written) and the exception path of MQTT publishing: both concern I/O only and leave the store as it is.
- `float()` and `int()` conversions of strings: a payload field is absent, a number, or a value whose conversion raises. Floating point is modelled with `real`.
- Timestamps and clocks are parameters: the backend's `datetime.now().isoformat()` is `now`, and the dashboard's `toLocaleTimeString` text and `Date.now()` are `shownTime` and `now`.
- Dashboard I/O: rendering, the initial REST fetches that also fill the chart, the reconnect timer, the `backendConnected` flag that the WebSocket's open, close and error events set, the CSV download, and the POST that sends each command (the handlers return the command instead). `dashboard/app/layout.tsx` only holds page metadata.
- Dashboard.DashboardState.HandlePedal: React batches state updates and handlers read the state of the last render. The model runs each handler on the current state, one at a time.
- The initial dashboard reading has no timestamp field; the model gives it the empty string.
