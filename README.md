# SD-BELT in Dafny

SD-BELT is a conveyor belt that sorts produce. Three cameras watch the belt. A
detector on the edge board runs a YOLO model on each frame and judges every
item healthy or rotten. It then turns a servo to the accept or the reject side,
and it reports scans and system messages to a backend. A desktop dashboard and
a mobile app show the scans and drive the belt motor. A few Python scripts
prepare the training labels.

This project models the deterministic logic of those programs and proves
properties of it. One module covers each part:

| module | file | what it covers |
|---|---|---|
| `Wrappers` | wrappers.dfy | `Option` and `Result` |
| `Text` | text.dfy | `std::to_string` / `QString::number` for integers, `std::stoi`, substring search, reading one line |
| `QtJson` | json.dfy | the JSON values the Qt clients read, and their `QJsonValue::toString` and `QVariant::toString` texts |
| `Decision` | decision.dfy | class-tag parsing, the top detection per frame, the healthy-batch verdict and the servo angle (object_detection.cpp) |
| `Geometry` | geometry.dfy | belt-edge detection from line segments, the crop and the centre window |
| `Tone` | tone.dfy | whitening of the belt tone, and frame difference with its centroid, on 2-D arrays of BGR pixels |
| `Capture` | capture.dfy | the per-frame step of the grab loop (crop, whitening, difference), the centre-crossing test, the per-camera cooldown and flag, the camera counters, the `/proc/meminfo` reader |
| `Arduino` | arduino.dfy | the serial command set with its range checks, `sendCommand`'s reply line, the `DISTANCE:` reader |
| `Dispatch` | dispatch.dfy | the two HTTP command dispatchers (detector and hardware controller), `/speed`, `/threshold`, the stop flag |
| `Datagram` | datagram.dfy | the UDP camera-frame datagram: sender and desktop receiver |
| `Dto` | dto.dfy | the JSON text of the DTOs, and the `object_info` record |
| `HttpClient` | httpclient.dfy | the scan array, HTTP/1.1 request framing, and the success test of each sender |
| `Desktop` | desktop.dfy | the scan-log view, the bounded system-log list, and the main window's angle field, speed throttle, menu and emergency stop |
| `Mobile` | mobile.dfy | the mobile `ApiService`: reply classification, error texts, product icons, cache lookups, scan filtering, the restart flag |
| `Labels` | labels.dfy | `remap_labels.py`, `count_class.py`, `compute_prune_targets.py` |

Code that updates state in place is modelled as classes:
- the Arduino link, the decision engine, the camera stamps and counters;
- the UDP receiver, the `object_info` record, the two HTTP front ends;
- the desktop views, the mobile service and the label dataset.

Their methods are proved against specification functions. Expression-only code
is modelled as functions with lemmas.

Some things stay outside the model:
- Clocks, sockets, the serial port, OpenCV and the JSON parser become inputs.
- Floating-point formatting and date formatting are function parameters.
- `double` becomes `real`.

## Model

| member | source | states |
|---|---|---|
| Arduino.RangeError | AI/object_detection_deneme/utils/ArduinoSerial.cpp:195-261 | every range-check message starts with "Error: " |
| Arduino.Validate | AI/object_detection_deneme/utils/ArduinoSerial.cpp:191-264 | a command is refused exactly when its argument is out of range: speed outside 0..100, gradual-stop ramp outside 1..50, start ramp outside 1..20, a direction other than 1 or -1, a servo angle outside 0..180 |
| Arduino.WireRoundTrip | AI/object_detection_deneme/utils/ArduinoSerial.cpp:185-264 | every accepted command's line ("STATUS", "PCT:n", "STOP:0", "STOP:r", "START:r", "DIR:d", "REV", "SERVO:a") reads back as that same command |
| Arduino.PercentRoundTrip | AI/object_detection_deneme/utils/ArduinoSerial.cpp:191-198 | "PCT:" with an accepted percentage reads back as that percentage |
| Arduino.StopRampRoundTrip | AI/object_detection_deneme/utils/ArduinoSerial.cpp:207-214 | "STOP:" with a ramp of 1 to 50 reads back as a gradual stop with that ramp, never as the immediate "STOP:0" |
| Arduino.StartRoundTrip | AI/object_detection_deneme/utils/ArduinoSerial.cpp:217-224 | "START:" with a ramp of 1 to 20 reads back as a start with that ramp |
| Arduino.DirectionRoundTrip | AI/object_detection_deneme/utils/ArduinoSerial.cpp:227-245 | "DIR:1" and "DIR:-1" read back as the direction that was set |
| Arduino.ServoRoundTrip | AI/object_detection_deneme/utils/ArduinoSerial.cpp:257-264 | "SERVO:" with an angle of 0 to 180 reads back as that angle |
| Arduino.WireInjective | AI/object_detection_deneme/utils/ArduinoSerial.cpp:185-264 | two accepted commands with the same line are the same command |
| Arduino.ServoAnglesAccepted | AI/object_detection_deneme/object_detection.cpp:494-500 | the servo angles 30 and 150 sent by the decision logic, 45 sent at start-up, and the default start ramp 5 all pass their range checks |
| Arduino.TerminatedLineReadsBack | AI/object_detection_deneme/utils/ArduinoSerial.cpp:139-141 | a command without a newline, written with its terminator, is the first line the device reads, whatever follows |
| Arduino.WireHasNoNewline | AI/object_detection_deneme/utils/ArduinoSerial.cpp:139 | no command line holds a newline, so each one is received whole |
| Arduino.RemoveChar | AI/object_detection_deneme/utils/ArduinoSerial.cpp:112-113 | the erase-remove idiom leaves no occurrence of the character and keeps every other character with its count |
| Arduino.ReadLine | AI/object_detection_deneme/utils/ArduinoSerial.cpp:107-113 | the line the reader keeps holds neither newline nor carriage return |
| Arduino.ReplyOf | AI/object_detection_deneme/utils/ArduinoSerial.cpp:169-175 | the reply is never empty: it is the first line that arrived whenever that is non-empty, and otherwise an error text starting with "Error: " |
| Arduino.Response | AI/object_detection_deneme/utils/ArduinoSerial.cpp:130-264 | the reply is never empty; a refused command answers with a text starting "Error: "; an accepted one on a closed port answers "Error: Serial port not open" |
| Arduino.FirstLine | AI/object_detection_deneme/utils/ArduinoSerial.cpp:148-167 | the read loop returns exactly the characters before the first newline, or all of them when none came |
| Arduino.ArduinoSerial.constructor | AI/object_detection_deneme/utils/ArduinoSerial.cpp:19-83 | the port is open exactly when open, tcgetattr and tcsetattr all succeeded; no distance and nothing written yet |
| Arduino.ArduinoSerial.SendCommand | AI/object_detection_deneme/utils/ArduinoSerial.cpp:130-176 | a closed port or a failed write answers with its error and writes nothing; otherwise exactly the command plus newline is written and the reply is the first line that came back |
| Arduino.ArduinoSerial.Execute | AI/object_detection_deneme/utils/ArduinoSerial.cpp:185-264 | the command's line is written only when the command is accepted, the port is open and the write succeeds, and the answer is the corresponding reply |
| Arduino.ArduinoSerial.SetServoInitialAngle | AI/object_detection_deneme/utils/ArduinoSerial.h:131 | "SERVO:45" goes straight to sendCommand |
| Arduino.ArduinoSerial.OnRead | AI/object_detection_deneme/utils/ArduinoSerial.cpp:101-127 | a read line that mentions "DISTANCE:" becomes the latest distance, cleaned of newlines and carriage returns; anything else leaves it as it was; nothing is written |
| Capture.IsCenterBetweenPoints | AI/object_detection_deneme/object_detection.cpp:925-942 | true exactly when the width is positive, neither point is the "nothing found" marker, and the middle of the width lies between the two x coordinates |
| Capture.CenterTestSymmetric | AI/object_detection_deneme/object_detection.cpp:925-942 | the test gives the same answer with its two points swapped |
| Capture.NothingBeforeNeverTriggers | AI/object_detection_deneme/object_detection.cpp:1021-1031 | a frame right after one where nothing was found never triggers, so neither does the first frame |
| Capture.CamBuf.constructor | AI/object_detection_deneme/object_detection.cpp:76-82 | a camera buffer starts with its flag lowered |
| Capture.Stamps.constructor | AI/object_detection_deneme/object_detection.cpp:87 | no camera has a capture time stamp at start |
| Capture.Grab.constructor | AI/object_detection_deneme/object_detection.cpp:1019-1031 | the loop starts from the whitened, cropped background as the previous frame, and from that background's centroid against itself under the camera's threshold as the previous difference, which Tone.SelfCompareFindsNothing shows is (-1, -1) when no channel is zero |
| Capture.Grab.OnFrame | AI/object_detection_deneme/object_detection.cpp:1104-1156 | a centred hit outside the cooldown stamps the camera and raises its flag; a centred hit inside the cooldown changes nothing; a miss lowers the flag; other cameras' stamps are untouched; the new difference is kept |
| Capture.Grab.Step | AI/object_detection_deneme/object_detection.cpp:1038-1164 | one iteration on a frame that was read: cameras 0 and 1 whiten the crop and camera 2 the whole frame, pixel by pixel; the difference is the centroid of that whitened frame against the previous one; the cooldown, stamp and flag follow the trigger rule with the width between the edges; the whitened frame becomes the previous one |
| Capture.Poll | AI/object_detection_deneme/object_detection.cpp:1371-1403 | a frame is queued exactly when the system is ready and the flag is up, and the flag is lowered then |
| Capture.RunKeeps | AI/object_detection_deneme/object_detection.cpp:1104-1156 | any sequence of frames and coordinator turns keeps the captures spaced by the cooldown and the queued frames no more than the captures |
| Capture.CaptureGuarantees | AI/object_detection_deneme/object_detection.cpp:1104-1151 | from start, whatever the timing and interleaving, two captures of a camera are at least five seconds apart and at most one frame is queued per capture |
| Capture.CooldownBoundary | AI/object_detection_deneme/object_detection.cpp:1110-1111 | a hit four seconds after a capture is ignored; one five seconds after is taken |
| Capture.OpenFailed | AI/object_detection_deneme/object_detection.cpp:960-969 | a camera that fails to open lowers both counts and raises all_cameras_done when it was the last active one |
| Capture.Finished | AI/object_detection_deneme/object_detection.cpp:1198-1203 | a grab loop that ends lowers the active count and raises all_cameras_done when it was the last |
| Capture.OutcomesCount | AI/object_detection_deneme/object_detection.cpp:960-969 | after any outcomes the active count has dropped by their number and num_camera by the number of failures |
| Capture.CorrectedDoneIffZero | AI/object_detection_deneme/object_detection.cpp:1198-1203 | with the corrected open-failure path, all_cameras_done is raised exactly when the active count reaches zero |
| Capture.AllOutcomesEndTheRun | AI/object_detection_deneme/object_detection.cpp:960-969 | with one outcome from each of the three cameras, in any order, the run ends, and num_camera counts the cameras that opened |
| Capture.AsWrittenDoneIffLastStopped | AI/object_detection_deneme/object_detection.cpp:960-969 | as written, the run ends exactly when the last camera to report is one that opened |
| Capture.AllFailedNeverDone | AI/object_detection_deneme/object_detection.cpp:960-969 | as written, three cameras that all fail to open leave no camera active and all_cameras_done false |
| Capture.Cameras.constructor | AI/object_detection_deneme/object_detection.cpp:62-72 | three active cameras, num_camera three, all_cameras_done false |
| Capture.Cameras.OnOpenFailed | AI/object_detection_deneme/object_detection.cpp:960-969 | the shared counters change as the corrected open-failure step says |
| Capture.Cameras.OnLoopEnded | AI/object_detection_deneme/object_detection.cpp:1198-1203 | the shared counters change as the end of a grab loop says |
| Capture.Note | AI/object_detection_deneme/object_detection.cpp:139-140 | a MemTotal: line sets the total, a MemAvailable: line sets the free memory, any other line changes nothing |
| Capture.TruncDiv | AI/object_detection_deneme/object_detection.cpp:144 | C++'s division law: the quotient times the divisor lies on the dividend's side of zero, at most the dividend's magnitude and less than one divisor short of it |
| Capture.GetMem | AI/object_detection_deneme/object_detection.cpp:133-146 | the loop stops at the line where both values are known and returns them in MiB |
| Capture.OtherLinesIgnored | AI/object_detection_deneme/object_detection.cpp:138-141 | lines with neither key leave the values as they were |
| Capture.StopsOnceKnown | AI/object_detection_deneme/object_detection.cpp:141 | nothing after the line where both values became known is read |
| Capture.MeminfoRead | AI/object_detection_deneme/object_detection.cpp:133-146 | a meminfo listing the total, other lines, then the available memory gives exactly those two values, whatever follows |
| Datagram.Truncate8 | AI/object_detection_deneme/utils/udp_sender.hpp:27 | the id byte equals the camera id when that is below 256, and agrees with it modulo 256 otherwise |
| Datagram.BigEndian32RoundTrip | AI/object_detection_deneme/utils/udp_sender.hpp:28-29 | the length written in network order is read back by a big-endian reader as the same number |
| Datagram.ReadThenWrite | Desktop/CameraReceiver.cpp:46-52 | four bytes read as a big-endian number and written back are the same four bytes |
| Datagram.ReadBigEndian32Injective | Desktop/CameraReceiver.cpp:46-52 | two four-byte fields that read as the same length are equal |
| Datagram.Send | AI/object_detection_deneme/utils/udp_sender.hpp:19-45 | a datagram is produced exactly when the payload is at most 60000 bytes; it is five header bytes followed by the payload |
| Datagram.ToInt32 | Desktop/CameraReceiver.cpp:55 | the cast keeps values below 2^31 and wraps larger ones to negatives |
| Datagram.Decode | Desktop/CameraReceiver.cpp:43-61 | an accepted datagram has a camera id below CAM_COUNT, a length field equal to the bytes after the header, and a non-empty image equal to those bytes |
| Datagram.EncodeDecodeRoundTrip | Desktop/CameraReceiver.cpp:43-61 | every frame sent from a camera id below CAM_COUNT with a non-empty payload is received with the same camera id and payload |
| Datagram.ForeignCameraRejected | Desktop/CameraReceiver.cpp:55-56 | a frame sent with a camera id of CAM_COUNT or more is dropped |
| Datagram.EmptyPayloadSkipped | Desktop/CameraReceiver.cpp:59-61 | an empty image is never shown, even with a correct header |
| Datagram.ShowOneTouchesOnePane | Desktop/CameraReceiver.cpp:63-76 | one datagram changes at most the pane of its own camera, and that pane then shows exactly its image bytes |
| Datagram.UntouchedPaneKept | Desktop/CameraReceiver.cpp:36-77 | a pane whose camera id heads none of the pending datagrams keeps what it showed |
| Datagram.LastFrameShown | Desktop/CameraReceiver.cpp:36-77 | a sent frame that decodes as an image ends up on its camera's pane when no later datagram carries that camera id |
| Datagram.Receiver.constructor | Desktop/CameraReceiver.cpp:3-29 | three panes, each showing "No Frame" |
| Datagram.Receiver.ProcessPending | Desktop/CameraReceiver.cpp:31-78 | nothing changes when the socket is invalid; otherwise the panes are those after all pending datagrams in arrival order |
| Decision.ParseClassString | AI/object_detection_deneme/object_detection.cpp:272-284 | the name never holds '_'; a tag without '_' comes back whole and healthy; otherwise the tag is the name, '_', then a state, and it is healthy exactly when that state is neither "Rotten" nor "rotten" |
| Decision.ParseClassStringOfLabel | AI/object_detection_deneme/object_detection.cpp:272-284 | a tag built from a name without '_' and a state parses back to that name and the state's verdict |
| Decision.ResultField | AI/object_detection_deneme/object_detection.cpp:354-357 | the result text holds no newline and is empty for a tag without '_' |
| Decision.ResultFieldPlace | AI/object_detection_deneme/object_detection.cpp:354-357 | the result text is what follows the first '_', up to the first newline or the end of the tag |
| Decision.CountHealthyAll | AI/object_detection_deneme/object_detection.cpp:359-361 | the success count is at most the batch size, and reaches it exactly when every scan is a success |
| Decision.CountStep | AI/object_detection_deneme/object_detection.cpp:359-361 | one more scan adds one to the running count exactly when it is a success |
| Decision.ScoreStep | AI/object_detection_deneme/object_detection.cpp:362-364 | after one more scan the running score is the sum of the signed confidences so far divided by the batch size |
| Decision.CountHealthyStep | AI/object_detection_deneme/object_detection.cpp:359-361 | extending a prefix by one scan adds one to the count exactly when that scan is a success |
| Decision.SumHealthsStep | AI/object_detection_deneme/object_detection.cpp:362-364 | extending a prefix by one scan adds its signed confidence to the sum |
| Decision.IsProductHealthy | AI/object_detection_deneme/object_detection.cpp:343-384 | the batch is healthy exactly when every scan's result text is "Healthy" and the mean signed confidence reaches the threshold |
| Decision.TallyScans | AI/object_detection_deneme/object_detection.cpp:345-368 | the loop yields the number of successful scans and the mean signed confidence (0 for an empty batch) |
| Decision.ScanHealth | AI/object_detection_deneme/object_detection.cpp:351-362 | one scan's success flag and its signed confidence: positive for "Healthy", negated otherwise |
| Decision.SumRealsAtLeast | AI/object_detection_deneme/object_detection.cpp:364 | terms each at least t sum to at least t per term |
| Decision.SumRealsBelow | AI/object_detection_deneme/object_detection.cpp:364 | non-empty terms each below t sum to less than t per term |
| Decision.ConfidentBatchAccepted | AI/object_detection_deneme/object_detection.cpp:370-376 | a non-empty batch of successes each at least as confident as the threshold is accepted |
| Decision.UnconfidentBatchRejected | AI/object_detection_deneme/object_detection.cpp:372-382 | a non-empty batch whose signed confidences are all below the threshold is rejected |
| Decision.FailedScanRejects | AI/object_detection_deneme/object_detection.cpp:370-382 | one scan whose result text is not "Healthy" rejects the batch at every threshold |
| Decision.EmptyBatchVerdict | AI/object_detection_deneme/object_detection.cpp:345-376 | the empty batch is accepted exactly when the threshold is at most 0 |
| Decision.LabelReadersDisagree | AI/object_detection_deneme/object_detection.cpp:275-278 | a tag without '_' is healthy for parse_class_string but a failure for the batch verdict (lines 354-359) |
| Decision.TopIndex | AI/object_detection_deneme/object_detection.cpp:452-476 | the chosen detection has the largest confidence, above -1, and is the first one with it; none is chosen only when every confidence is at most -1 |
| Decision.SelectTop | AI/object_detection_deneme/object_detection.cpp:452-485 | the loop builds the scan of the top detection, with y_max in the x place and x_max in the y place |
| Decision.DecisionEngine.constructor | AI/object_detection_deneme/object_detection.cpp:64-72 | an empty batch, the given camera count, the threshold 70, nothing posted or commanded |
| Decision.DecisionEngine.OnInference | AI/object_detection_deneme/object_detection.cpp:455-535 | a frame without detections changes nothing; otherwise the top scan joins the batch, and a batch reaching the camera count is posted, answered with 30 when healthy and 150 otherwise, and cleared; a batch already at or past the count is never judged again and only grows; the object_info carries the parsed top tag |
| Decision.DecisionEngine.SetThreshold | AI/object_detection_deneme/utils/HttpServerHandler.cpp:58-71 | later batches are judged against the new threshold; nothing else changes |
| Decision.DecisionEngine.CameraLost | AI/object_detection_deneme/object_detection.cpp:965 | a camera that fails to open lowers the count a batch needs by one and changes nothing else; the batch stays under the count unless it already held one scan fewer than the old count, in which case it is left full |
| Decision.EmptyFrameInfo | AI/object_detection_deneme/object_detection.cpp:452-453 | a frame without detections yields an object_info for an empty, healthy tag with confidence -1 |
| Desktop.ErrorText | Desktop/Logs.cpp:83-85 | a missing or null errorMessage reads "No error"; a string one is shown as it is |
| Desktop.RowOf | Desktop/Logs.cpp:79-116 | a row's background is green exactly when the entry's isSuccess is true |
| Desktop.Rows | Desktop/Logs.cpp:73-118 | never more rows than entries |
| Desktop.MinOf | Desktop/Logs.cpp:100 | the earliest timestamp is one of them and no later than any |
| Desktop.MaxOf | Desktop/Logs.cpp:101 | the latest timestamp is one of them and no earlier than any |
| Desktop.ElapsedMinutes | Desktop/Logs.cpp:127-128 | the divisor is never below one minute; from a minute on it is the millisecond span between the extreme stamps cut down to whole minutes, as secsTo's truncation to seconds and the division by 60 give |
| Desktop.ScanStep | Desktop/Logs.cpp:73-103 | one more entry adds its row when it is an object, and its timestamp when that is valid |
| Desktop.ExtremesSnoc | Desktop/Logs.cpp:93-102 | the running earliest and latest timestamps are updated exactly as the loop does |
| Desktop.ItemsPerMinuteBounds | Desktop/Logs.cpp:127-130 | the rate is the whole number of entries per elapsed minute, at most the total, and the total itself when the span is under 120 000 ms |
| Desktop.FractionalSpanTruncates | Desktop/Logs.cpp:127-130 | stamps 0.9 s and 120.1 s past a minute span 119 whole seconds, so one minute, and ten entries show a rate of ten |
| Desktop.RowsAppend | Desktop/Logs.cpp:73-118 | the rows of two arrays in sequence are the rows of each, in order |
| Desktop.RowsOfObjects | Desktop/Logs.cpp:73-118 | an array of objects gives exactly one row per entry, at the entry's own position |
| Desktop.ScanLogs | Desktop/Logs.cpp:70-118 | the loop yields the rows and, when any timestamp was valid, the earliest and the latest |
| Desktop.PerMinute | Desktop/Logs.cpp:127-130 | the label's number is the entries per whole elapsed minute, computed from the millisecond stamps the scan loop kept |
| Desktop.LogsView.constructor | Desktop/Logs.cpp:8-16 | an empty list and empty labels |
| Desktop.LogsView.OnLogsReceived | Desktop/Logs.cpp:34-135 | a missing reply, a network error, bad JSON or no "result" array changes nothing; otherwise the list is refilled, the count label shows the array size and the rate label the entries per minute over the millisecond timestamps |
| Desktop.PushNewest | Desktop/SystemLogRetriever.cpp:70-75 | pushing onto the newest 1000 lines gives the newest 1000 of the extended list |
| Desktop.KeepsNewest | Desktop/SystemLogRetriever.cpp:65-76 | from a list within the cap, pushing with eviction of the oldest leaves exactly the newest 1000 lines, oldest first |
| Desktop.LogRetriever.constructor | Desktop/SystemLogRetriever.cpp:9-17 | an empty list, no token, no reply outstanding |
| Desktop.LogRetriever.Fetch | Desktop/SystemLogRetriever.cpp:19-29 | the token is remembered and a reply is outstanding |
| Desktop.LogRetriever.OnSystemLogReceived | Desktop/SystemLogRetriever.cpp:31-77 | the reply is taken; without a reply or a "logs" array nothing changes, otherwise each entry's text is pushed under the 1000-line cap |
| Desktop.TrimEnd | Desktop/mainwindow.cpp:202 | the result is a prefix of the input without trailing whitespace, and only whitespace was removed |
| Desktop.AngleOf | Desktop/mainwindow.cpp:202-210 | an accepted angle lies in 0..360 |
| Desktop.SkipSpacesOver | Desktop/mainwindow.cpp:202 | leading whitespace before text that does not start with whitespace is removed entirely |
| Desktop.TrimEndOver | Desktop/mainwindow.cpp:202 | trailing whitespace after text that does not end with whitespace is removed entirely |
| Desktop.DecimalParses | Desktop/mainwindow.cpp:204 | toInt reads a decimal rendering back as its value when it fits in 32 bits, and fails otherwise |
| Desktop.AngleAccepted | Desktop/mainwindow.cpp:202-210 | any angle from 0 to 360 typed in decimal, with whitespace around it, is accepted as itself |
| Desktop.AngleAboveRangeRefused | Desktop/mainwindow.cpp:206 | a whole number above 360 is refused |
| Desktop.DecimalIsTrimmed | Desktop/mainwindow.cpp:202 | a decimal rendering is unchanged by trimming |
| Desktop.DigitsAreTrimmed | Desktop/mainwindow.cpp:202 | a run of digits is unchanged by trimming |
| Desktop.AngleNeedsDigits | Desktop/mainwindow.cpp:203-206 | trimmed text with a non-digit anywhere after its first character is refused |
| Desktop.ThrottlePostsOnce | Desktop/mainwindow.cpp:335-351 | within one timer period at most the first slider change is posted |
| Desktop.MainWindow.constructor | Desktop/mainwindow.cpp:32-171 | angle 180, throttle unlocked, nothing posted, and after the Dashboard click only its button has the selected style |
| Desktop.MainWindow.EventFilter | Desktop/mainwindow.cpp:194-222 | Return or Enter in the angle field is consumed and stores the angle only when it is valid; every other event gets the base class's answer |
| Desktop.MainWindow.SetActiveButton | Desktop/mainwindow.cpp:179-184 | the active button alone has the selected style; the others have the menu style |
| Desktop.MainWindow.OnSpeedAdjusted | Desktop/mainwindow.cpp:313-333 | the slider's value is posted to the speed endpoint and shown as "% value" |
| Desktop.MainWindow.OnSpeedChanged | Desktop/mainwindow.cpp:335-351 | the value is shown; it is posted only when the throttle was open, and the throttle is then locked with the timer started |
| Desktop.MainWindow.MoveSlider | Desktop/mainwindow.cpp:168-169 | moving the slider to a different value goes through the throttle; moving it to the same value changes nothing |
| Desktop.MainWindow.OnTimeout | Desktop/mainwindow.cpp:59-61 | the timer's timeout unlocks the throttle |
| Desktop.MainWindow.OnEmergencyStopClicked | Desktop/mainwindow.cpp:295-311 | "STOP\n" is posted, the label shows 0, and the slider moves to 0, posting a speed of 0 only when it moved with the throttle open |
| Desktop.MainWindow.OnReverseTheFlowClicked | Desktop/mainwindow.cpp:280-293 | "REV\n" is posted to the reverse endpoint; nothing else changes |
| Dispatch.PrefixArgument | AI/object_detection_deneme/utils/HttpServerHandler.cpp:131-139 | the handler answers on its own exactly when std::stoi throws on the text after the prefix, and then with an "ERR: " text |
| Dispatch.ServerDispatch | AI/object_detection_deneme/utils/HttpServerHandler.cpp:100-169 | a disconnected Arduino answers "Arduino not connected."; when connected, every answer the handler makes on its own starts with "ERR: " |
| Dispatch.HardwareDispatch | Hardware/main.cpp:99-142 | the same two promises for the hardware controller's handler |
| Dispatch.ExactCommandsHaveNoPrefix | AI/object_detection_deneme/utils/HttpServerHandler.cpp:119-126 | no exact-match command begins with "speed=" or "servo=", so testing the prefixes first changes nothing |
| Dispatch.ExactCommandDispatch | AI/object_detection_deneme/utils/HttpServerHandler.cpp:143-159 | each command of the exact-match table sends its table entry once the Arduino is connected |
| Dispatch.DispatchersAgreeExceptReverse | Hardware/main.cpp:99-142 | the two handlers make the same decision on every command text except "reverse" |
| Dispatch.DispatchersDifferOnReverse | Hardware/main.cpp:112-113 | on "reverse" the embedded server sends "REV" (HttpServerHandler.cpp:152-153) but the hardware controller sends "DIR:-1" |
| Dispatch.SpeedCommandShape | AI/object_detection_deneme/utils/HttpServerHandler.cpp:131-134 | "speed=" followed by a formatted int carries the prefix, stoi reads the int back, and it is no exact command |
| Dispatch.SpeedPrefixShape | AI/object_detection_deneme/utils/HttpServerHandler.cpp:131-133 | any "speed=" command keeps its argument after the prefix and is no exact command |
| Dispatch.SpeedCommandCarriesValue | Hardware/main.cpp:118-121 | both handlers turn "speed=" plus a formatted int into the speed command with that very int |
| Dispatch.BadArgumentAnswersInvalid | AI/object_detection_deneme/utils/HttpServerHandler.cpp:136-138 | a "servo=" whose argument std::stoi rejects answers "ERR: Invalid argument - stoi" in both handlers and sends nothing |
| Dispatch.PrefixErrorReply | AI/object_detection_deneme/utils/HttpServerHandler.cpp:165-168 | when stoi throws, the answer is the same whatever command the prefix would have made |
| Dispatch.ServoPrefixShape | AI/object_detection_deneme/utils/HttpServerHandler.cpp:136-138 | any "servo=" command keeps its argument after the prefix, does not start with "speed=" and is no exact command |
| Dispatch.ServerHandler.constructor | AI/object_detection_deneme/utils/HttpServerHandler.cpp:6-7 | the handler drives the given Arduino and engine |
| Dispatch.ServerHandler.HandleCommand | AI/object_detection_deneme/utils/HttpServerHandler.cpp:100-169 | the answer is the dispatch decision's reply, given whether the Arduino was connected; exactly the decided command's line is written when it passes its check and the write succeeds, and nothing for an own answer; the port and the distance are untouched |
| Dispatch.ServerHandler.PostRev | AI/object_detection_deneme/utils/HttpServerHandler.cpp:22-27 | status 200 with the reverse command's reply, or "Arduino not connected."; "REV\n" is written exactly when the port is open and the write succeeds |
| Dispatch.ServerHandler.PostStop | AI/object_detection_deneme/utils/HttpServerHandler.cpp:29-34 | status 200 with the immediate stop's reply, or "Arduino not connected."; "STOP:0\n" is written exactly when the port is open and the write succeeds |
| Dispatch.ServerHandler.PostSpeed | AI/object_detection_deneme/utils/HttpServerHandler.cpp:36-55 | a body stoi rejects answers 400 with the error text and writes nothing; otherwise setSpeed's reply is sent with status 200, with no connection test of its own, and the PCT line is written exactly when setSpeed sends it |
| Dispatch.ServerHandler.PostThreshold | AI/object_detection_deneme/utils/HttpServerHandler.cpp:58-79 | a parsed body becomes the threshold and answers "Threshold changed"; a failed one keeps the threshold and answers 400; the batch state is untouched |
| Dispatch.Controller.constructor | Hardware/main.cpp:17 | the controller starts running with the server not stopped |
| Dispatch.Controller.Signal | Hardware/main.cpp:20-24 | SIGINT or SIGTERM clears the run flag and nothing else |
| Dispatch.Controller.Run | Hardware/main.cpp:176-182 | the server is stopped exactly when some second saw a signal, and then right after the first such second; otherwise the controller is still running after all of them |
| Dto.StringTokenBody | AI/object_detection_deneme/utils/scan_request_dto.h:24 | a JSON reader's string body is never longer than the text after the opening quote |
| Dto.PlainLabelReadsBack | AI/object_detection_deneme/utils/scan_request_dto.h:24 | a label free of '"' and backslash is read back intact from the JSON text |
| Dto.QuotedLabelIsCut | AI/object_detection_deneme/utils/scan_request_dto.h:24 | because nothing is escaped, a label holding '"' reaches a JSON reader cut short at that quote |
| Dto.LeadingFieldReadsBack | AI/object_detection_deneme/utils/scan_request_dto.h:23-24 | the first quoted field of an object built by concatenation reads back as its value when that needs no escaping |
| Dto.FourFieldsLeadReadsBack | AI/object_detection_deneme/utils/scan_request_dto.h:23-28 | the same for an object of four fields |
| Dto.ThreeFieldsLeadReadsBack | AI/object_detection_deneme/utils/system_messages_dto.h:65-69 | the same for an object of three fields |
| Dto.ScanLabelReadsBack | AI/object_detection_deneme/utils/scan_request_dto.h:22-30 | a scan's JSON starts with its productResult field, which reads back as the label when it needs no escaping |
| Dto.TwoDigits | AI/object_detection_deneme/utils/system_messages_dto.h:43 | every two-digit field is exactly two decimal digits |
| Dto.TwoDigitsValue | AI/object_detection_deneme/utils/system_messages_dto.h:43 | the two digits read back as the value for 0..99 |
| Dto.FormatUtcRoundTrip | AI/object_detection_deneme/utils/system_messages_dto.h:40-45 | for four-digit years the timestamp is 20 characters with '-', 'T', ':' and 'Z' at fixed places, and it reads back to the same broken-down time |
| Dto.TimestampLayout | AI/object_detection_deneme/utils/system_messages_dto.h:43 | where each field and separator sits in the "%Y-%m-%dT%H:%M:%SZ" text |
| Dto.FormatUtcIsPlain | AI/object_detection_deneme/utils/system_messages_dto.h:43 | a timestamp text never needs escaping in a JSON string |
| Dto.NatToStringLength4 | AI/object_detection_deneme/utils/system_messages_dto.h:43 | a year from 1000 to 9999 prints as four digits |
| Dto.LevelName | AI/object_detection_deneme/utils/system_messages_dto.h:48-56 | each level's name is upper case, at least four letters, and reads back as that level |
| Dto.FormattedMessage | AI/object_detection_deneme/utils/system_messages_dto.h:59-61 | the text is the level name, ": ", then exactly the message |
| Dto.LogTimestampReadsBack | AI/object_detection_deneme/utils/system_messages_dto.h:64-71 | a log message's JSON leads with its timestamp field, which a reader gets back verbatim |
| Dto.StatusIgnoresIsoText | AI/object_detection_deneme/utils/system_status_dto.h:22-29 | the constructor taking an ISO time text ignores it: any two texts give the same status record |
| Dto.StatusTimestampReadsBack | AI/object_detection_deneme/utils/system_status_dto.h:46-54 | the status JSON leads with its timestamp field, which a reader gets back verbatim |
| Dto.ObjectInfo.Default | AI/object_detection_deneme/utils/Object_info.cpp:4-9 | an empty class name, zero confidence and position, not healthy |
| Dto.ObjectInfo.constructor | AI/object_detection_deneme/utils/Object_info.cpp:12-21 | each argument is stored in its own field |
| Dto.ObjectInfo.SetClass | AI/object_detection_deneme/utils/Object_info.cpp:31 | the class name becomes the argument; the other fields are unchanged |
| Dto.ObjectInfo.SetConfidence | AI/object_detection_deneme/utils/Object_info.cpp:32 | the confidence becomes the argument; the other fields are unchanged |
| Dto.ObjectInfo.SetX | AI/object_detection_deneme/utils/Object_info.cpp:33 | x becomes the argument; the other fields are unchanged |
| Dto.ObjectInfo.SetY | AI/object_detection_deneme/utils/Object_info.cpp:34 | y becomes the argument; the other fields are unchanged |
| Dto.ObjectInfo.SetIsHealthy | AI/object_detection_deneme/utils/Object_info.cpp:35 | the health flag becomes the argument; the other fields are unchanged |
| Geometry.Round | AI/object_detection_deneme/object_detection.cpp:717-718 | std::round lands within one half of its argument, on the argument's side of zero |
| Geometry.FirstMatch | AI/object_detection_deneme/object_detection.cpp:701-706 | the group taken is the first whose running mean is within the merge tolerance; none is taken only when no group is |
| Geometry.Absorb | AI/object_detection_deneme/object_detection.cpp:699-707 | every group holds at least one segment after a segment is absorbed |
| Geometry.Grouped | AI/object_detection_deneme/object_detection.cpp:695-708 | every group holds at least one segment |
| Geometry.AbsorbTotals | AI/object_detection_deneme/object_detection.cpp:699-707 | absorbing a segment adds one to the total count and its mid x to the total sum |
| Geometry.GroupedTotals | AI/object_detection_deneme/object_detection.cpp:695-708 | every near-vertical segment lands in exactly one group: the group counts add up to the kept segments and the sums to their mid x |
| Geometry.NearestLeft | AI/object_detection_deneme/object_detection.cpp:715-719 | a left choice is one of the groups |
| Geometry.NearestRight | AI/object_detection_deneme/object_detection.cpp:715-719 | a right choice is one of the groups |
| Geometry.NearestLeftIsNearest | AI/object_detection_deneme/object_detection.cpp:715-719 | there is a left edge exactly when some group's mean is strictly left of the centre column; it is the first group of largest such mean |
| Geometry.NearestRightIsNearest | AI/object_detection_deneme/object_detection.cpp:715-719 | there is a right edge exactly when some group's mean is strictly right of the centre column; it is the first group of smallest such mean |
| Geometry.AbsorbSegment | AI/object_detection_deneme/object_detection.cpp:699-707 | the inner loop absorbs the segment as the grouping rule says |
| Geometry.GroupSegments | AI/object_detection_deneme/object_detection.cpp:693-708 | the grouping loop yields the groups of the near-vertical segments, in order |
| Geometry.NearestSides | AI/object_detection_deneme/object_detection.cpp:710-721 | the choice loop yields the rounded means of the nearest group on each side, -1 where there is none |
| Geometry.FirstVerticalLineXs | AI/object_detection_deneme/object_detection.cpp:674-722 | an empty frame gives (-1, -1); otherwise the nearest grouped edge on each side of the centre column |
| Geometry.CentredGroupIgnored | AI/object_detection_deneme/object_detection.cpp:717-718 | a group whose mean is exactly the centre column is on neither side |
| Geometry.NoVerticalSegmentNoEdges | AI/object_detection_deneme/object_detection.cpp:695-697 | without a near-vertical segment there are no groups and both sides are missing |
| Geometry.WithFallback | AI/object_detection_deneme/object_detection.cpp:981-986 | the result is never the no-edge marker (-1, -1): when neither side was found the edges become 0 and 640, and edges that were found are kept |
| Geometry.CropOf | AI/object_detection_deneme/object_detection.cpp:725-738 | no crop exactly when an edge is negative or the left edge is not left of the right one; an invalid region exactly when the left edge lies past the last column; otherwise the columns from the left edge to the right edge, clipped to the frame |
| Geometry.CropRows | AI/object_detection_deneme/object_detection.cpp:733-737 | no crop returns the rows as they are; a crop keeps every row, and each row becomes exactly the columns of its window |
| Geometry.FallbackCropsFirstColumns | AI/object_detection_deneme/object_detection.cpp:981-989 | with the fallback edges a frame wider than 640 pixels is cut to its first 641 columns |
| Geometry.FallbackCropKeepsNarrowFrame | AI/object_detection_deneme/object_detection.cpp:981-989 | a frame at most 640 pixels wide is kept whole by the fallback crop |
| Geometry.OneSidedEdgesDoNotCrop | AI/object_detection_deneme/object_detection.cpp:981-989 | with only one side found, no fallback is applied and the frame is not cropped |
| Geometry.CenterWindow | AI/object_detection_deneme/object_detection.cpp:749-754 | the averaging window is non-empty, at most the requested size, and inside the frame |
| Geometry.CenterWindowCentred | AI/object_detection_deneme/object_detection.cpp:749-754 | in a frame at least as large as the window, the window has its full size and sits at the centre |
| Tone.Guard | AI/object_detection_deneme/object_detection.cpp:792-794 | the divisor is never below 1e-6, and is the value itself or 1e-6 |
| Tone.WhitenWhiteOrSame | AI/object_detection_deneme/object_detection.cpp:786-807 | a pixel comes out white or unchanged, and white exactly when it has the reference tone |
| Tone.SelfRatio | AI/object_detection_deneme/object_detection.cpp:792-794 | a channel over itself is 1, except a zero channel, which gives 0 |
| Tone.ReferenceColourWhitened | AI/object_detection_deneme/object_detection.cpp:786-807 | a pixel of exactly the reference colour, no channel zero, is whitened at any tolerances |
| Tone.WhiteOutSameTone | AI/object_detection_deneme/object_detection.cpp:763-810 | a fresh frame of the same size in which each pixel is the whitened version of the input's |
| Tone.CropFrame | AI/object_detection_deneme/object_detection.cpp:725-738 | on a frame: no crop returns the frame itself; a crop is a fresh frame of full height whose pixel (y, x) is the source's pixel (y, first + x) |
| Tone.HasSameTone | AI/object_detection_deneme/object_detection.cpp:787-805 | the per-pixel test is the luminance test and the three colour tests on the ratios to the mean |
| Tone.SelfCompareChangedIffZeroChannel | AI/object_detection_deneme/object_detection.cpp:895-906 | at the default tolerances, a pixel compared with itself counts as changed exactly when it has a zero channel |
| Tone.RowCount | AI/object_detection_deneme/object_detection.cpp:891-911 | a row has no more changed pixels than pixels examined |
| Tone.CountPixel | AI/object_detection_deneme/object_detection.cpp:892-906 | one pixel is counted exactly when it fails the tone tests against the other frame |
| Tone.ScanRow | AI/object_detection_deneme/object_detection.cpp:891-911 | one row's changed pixels, the sum of their x, and y times their number |
| Tone.ScanFrames | AI/object_detection_deneme/object_detection.cpp:887-912 | the row loop yields the changed pixels of the frame and the sums of their coordinates |
| Tone.FrameTotalsStep | AI/object_detection_deneme/object_detection.cpp:887-912 | one more row adds its own totals to the whole-frame totals |
| Tone.CountFrames | AI/object_detection_deneme/object_detection.cpp:835-861 | the loop of framesDifferAboveTol yields the number of changed pixels |
| Tone.DiffCentroidTol | AI/object_detection_deneme/object_detection.cpp:868-922 | (-1, -1) for empty or differently sized frames, for no change, or for a changed share at most the threshold; otherwise the mean position of the changed pixels |
| Tone.WidthMismatchFindsNothing | AI/object_detection_deneme/object_detection.cpp:868-875 | frames of different widths give (-1, -1), as camera 2's first whole-width frame against the cropped background does |
| Tone.FramesDifferAboveTol | AI/object_detection_deneme/object_detection.cpp:816-864 | false for empty or differently sized frames; otherwise whether the changed share exceeds the threshold |
| Tone.SumXBound | AI/object_detection_deneme/object_detection.cpp:906-909 | the x sum of the changed pixels is at most their number times the last column |
| Tone.SumYBound | AI/object_detection_deneme/object_detection.cpp:906-909 | the y sum of the changed pixels is at most their number times the last row |
| Tone.CentroidInsideFrame | AI/object_detection_deneme/object_detection.cpp:914-921 | a reported centroid lies inside the frame |
| Tone.CentroidIffDiffer | AI/object_detection_deneme/object_detection.cpp:816-922 | with the same tolerances, a centroid is reported exactly when framesDifferAboveTol says the frames differ |
| Tone.RowCountZero | AI/object_detection_deneme/object_detection.cpp:895-906 | a row without zero channels has no changed pixel against itself |
| Tone.CountZero | AI/object_detection_deneme/object_detection.cpp:887-912 | a frame without zero channels has no changed pixel against itself |
| Tone.SelfCompareFindsNothing | AI/object_detection_deneme/object_detection.cpp:1021-1031 | the first previous_difference, the background against itself, is (-1, -1) at any threshold when no channel is zero |
| Tone.WhiteNeverSelfChanged | AI/object_detection_deneme/object_detection.cpp:806 | a white pixel never counts as changed against itself |
| Tone.RowChanSumUniform | AI/object_detection_deneme/object_detection.cpp:756 | a row of one colour sums to that channel times its length |
| Tone.WinChanSumUniform | AI/object_detection_deneme/object_detection.cpp:756 | a window of one colour sums to that channel times its area |
| Tone.UniformChannelMean | AI/object_detection_deneme/object_detection.cpp:756 | one channel of the mean of a one-colour window is that colour's channel |
| Tone.UniformMean | AI/object_detection_deneme/object_detection.cpp:742-759 | meanCenterRGB of a one-colour frame is that colour, red first |
| Tone.UniformBackgroundTurnsWhite | AI/object_detection_deneme/object_detection.cpp:993-999 | a one-colour background with no zero channel is whitened everywhere by its own centre mean at the detector's tolerances |
| HttpClient.JoinSnoc | AI/object_detection_deneme/utils/http_client.cpp:134-139 | one more part adds a comma and the part to a non-empty join |
| HttpClient.Bracketed | AI/object_detection_deneme/utils/http_client.cpp:133-141 | the loop yields "[", the parts separated by commas, then "]" |
| HttpClient.ScansToJsonArray | AI/object_detection_deneme/utils/http_client.cpp:132-142 | the array holds each scan's JSON in order, comma-separated and bracketed; "[]" for no scans |
| HttpClient.HeaderBlockSnoc | AI/object_detection_deneme/utils/http_client.cpp:171-176 | the header block grows by one line and its CRLF |
| HttpClient.AssembleRequest | AI/object_detection_deneme/utils/http_client.cpp:171-178 | the request is the request line, Host, Content-Type, Content-Length and Connection headers, each ended by CRLF, an empty line, then the payload |
| HttpClient.SkipWithoutCR | AI/object_detection_deneme/utils/http_client.cpp:177 | a server's search for the blank line passes over text without carriage returns |
| HttpClient.CrLfBeforeLine | AI/object_detection_deneme/utils/http_client.cpp:172-176 | a CRLF followed by a line that does not start with a carriage return is not the blank line |
| HttpClient.BlankLineFound | AI/object_detection_deneme/utils/http_client.cpp:177-178 | two CRLFs in a row end the header block, and the body is what follows |
| HttpClient.HeaderBlockBody | AI/object_detection_deneme/utils/http_client.cpp:172-178 | after non-empty header lines free of carriage returns, the body found is exactly what follows the empty line |
| HttpClient.RequestBodyIsPayload | AI/object_detection_deneme/utils/http_client.cpp:171-178 | a server reading the request finds exactly the payload as its body, whatever the payload holds |
| HttpClient.RequestDeclaresPayloadLength | AI/object_detection_deneme/utils/http_client.cpp:175 | the declared Content-Length is the payload's length |
| HttpClient.SendScans | AI/object_detection_deneme/utils/http_client.cpp:144-212 | without a connection nothing is sent and the answer is false; otherwise the framed scan array is sent; a failed send is false; otherwise success is whether the response ever held "HTTP/1.1 2" |
| HttpClient.SuccessIsKept | AI/object_detection_deneme/utils/http_client.cpp:203-205 | once a chunk has carried "HTTP/1.1 2", later chunks do not undo the success |
| HttpClient.SendJson | AI/object_detection_deneme/utils/http_client.cpp:215-273 | the DTO's JSON is sent with the same framing when connected, and the answer is whether the connection and the send succeeded |
| HttpClient.Initialize | AI/object_detection_deneme/utils/http_client.cpp:12-25 | outside Windows, initialisation always succeeds |
| Labels.WordEnd | AI/ai_model/preprocessing/remap_labels.py:39 | the first word of a line ends at the first whitespace character or at the end of the line, and holds no whitespace |
| Labels.Words | AI/ai_model/preprocessing/remap_labels.py:39 | str.split() yields only non-empty words free of whitespace |
| Labels.LineEnd | AI/ai_model/preprocessing/remap_labels.py:36 | the first line ends at the first line boundary or at the end of the text, and holds no boundary |
| Labels.Lines | AI/ai_model/preprocessing/remap_labels.py:36 | str.splitlines() yields lines that hold no line boundary |
| Labels.WordsOfJoin | AI/ai_model/preprocessing/remap_labels.py:39-44 | splitting non-empty words joined by single spaces gives back exactly those words |
| Labels.LinesOfJoin | AI/ai_model/preprocessing/remap_labels.py:36-46 | splitting non-empty lines joined by "\n" gives back exactly those lines |
| Labels.JoinWordsNoBreak | AI/ai_model/preprocessing/remap_labels.py:44 | words joined by spaces contain no line boundary, so a rewritten label line stays one line |
| Labels.RemapId | AI/ai_model/preprocessing/remap_labels.py:10-17 | the remapped id is never "0" or "1", and any other id is kept as it is |
| Labels.RemapIdWord | AI/ai_model/preprocessing/remap_labels.py:43 | a remapped word is still a non-empty word without whitespace |
| Labels.RemappedLineWords | AI/ai_model/preprocessing/remap_labels.py:39-44 | a non-blank line becomes one non-empty line whose words are the old words with only the first one remapped |
| Labels.RemapLinesShape | AI/ai_model/preprocessing/remap_labels.py:37-44 | every line the remap writes is non-empty and holds no line boundary |
| Labels.LinesOfRemapped | AI/ai_model/preprocessing/remap_labels.py:36-46 | reading a rewritten file back gives exactly the new lines: one per non-blank line, in order |
| Labels.RemapLineStable | AI/ai_model/preprocessing/remap_labels.py:39-44 | remapping a line the remap wrote changes nothing |
| Labels.RemapLinesStable | AI/ai_model/preprocessing/remap_labels.py:37-44 | remapping the new lines again gives the same lines |
| Labels.RemapIdempotent | AI/ai_model/preprocessing/remap_labels.py:36-46 | running the remap a second time on a rewritten file leaves its text unchanged |
| Labels.NoOldIdsAfterRemap | AI/ai_model/preprocessing/remap_labels.py:36-46 | after the remap every line has a class id, and none is "0" or "1" |
| Labels.RemapText | AI/ai_model/preprocessing/remap_labels.py:36-46 | the per-line loop writes exactly the remapped text: blank lines dropped, first words remapped, lines joined by "\n" |
| Labels.RemapFileIdempotent | AI/ai_model/preprocessing/remap_labels.py:31-46 | rewriting a label file twice equals rewriting it once; a file that is not ".txt" is untouched |
| Labels.Dataset.constructor | AI/ai_model/preprocessing/remap_labels.py:7 | the dataset holds the given labels directories |
| Labels.Dataset.RemapLabels | AI/ai_model/preprocessing/remap_labels.py:20-46 | the train, test and valid labels directories have every file remapped in place; a missing split is skipped; other directories are untouched and no file is added or removed |
| Labels.RemapDir | AI/ai_model/preprocessing/remap_labels.py:31-46 | each file of one labels directory is rewritten, in the same order, and none is added or dropped |
| Labels.ClassOf | AI/ai_model/preprocessing/count_class.py:20-23 | a line contributes at most one class id |
| Labels.TallyCounts | AI/ai_model/preprocessing/count_class.py:19-27 | adding the lines one at a time counts exactly the first word of each non-blank line |
| Labels.FirstWordsRemapped | AI/ai_model/preprocessing/count_class.py:23-26 | the class ids of a remapped file are the old class ids, each remapped, in order |
| Labels.CountsAfterRemap | AI/ai_model/preprocessing/count_class.py:24-27 | counting after the remap counts every "0" as "4" and every "1" as "5", keeps the total, and counts no "0" or "1" |
| Labels.CountClasses | AI/ai_model/preprocessing/count_class.py:10-27 | the counter holds every annotation of the train, test and valid splits that exist, each class id once per non-blank line |
| Labels.CountDir | AI/ai_model/preprocessing/count_class.py:18-27 | counting a directory adds the annotations of its ".txt" files to the counter |
| Labels.CountFile | AI/ai_model/preprocessing/count_class.py:19-27 | counting a file adds the class id of each of its non-blank lines |
| Labels.CountLines | AI/ai_model/preprocessing/count_class.py:19-27 | the line loop adds exactly the first words of the non-blank lines, skipping blank ones |
| Labels.InsertCounts | AI/ai_model/preprocessing/count_class.py:31 | inserting an id into the order adds exactly that id |
| Labels.InsertSorted | AI/ai_model/preprocessing/count_class.py:31 | inserting into an order sorted by int value keeps it sorted and adds exactly the new id |
| Labels.SortIds | AI/ai_model/preprocessing/count_class.py:31 | sorted(counts, key=int) lists every counted id exactly once, in increasing int order |
| Labels.SumOfAll | AI/ai_model/preprocessing/count_class.py:34 | summing the counts over distinct ids that cover the counter gives the number of annotations |
| Labels.Report | AI/ai_model/preprocessing/count_class.py:30-35 | the report fails exactly when some id is not an integer; otherwise it lists every counted id once in increasing int order with its count, and the total is the number of annotations |
| Labels.SortedLines | AI/ai_model/preprocessing/count_class.py:31-32 | the lines printed for a sorted order of all counted ids carry each id once, in int order, with its count |
| Labels.ReportLines | AI/ai_model/preprocessing/count_class.py:31-35 | the print loop gives one line per sorted id with its count, and the total is the sum of the counts of those ids |
| Labels.EmptyClassIdNeverHits | AI/ai_model/preprocessing/compute_prune_targets.py:7-23 | with the shipped empty CLASS_ID no line matches, so no file is ever counted |
| Labels.HitCountBound | AI/ai_model/preprocessing/compute_prune_targets.py:21-25 | a split's count is at most its number of files, since each file counts at most once |
| Labels.KeepBounds | AI/ai_model/preprocessing/compute_prune_targets.py:35 | with a ratio between 0 and 1 the kept share is between 0 and the current count and is the product rounded down |
| Labels.CountHits | AI/ai_model/preprocessing/compute_prune_targets.py:16-26 | the loop counts the ".txt" files with a line whose first token is the class id (stopping at that line), and fails with an IndexError at a blank line reached first |
| Labels.HitCountFails | AI/ai_model/preprocessing/compute_prune_targets.py:22-23 | a file that hits a blank line before a matching one makes the whole count fail with IndexError |
| Labels.FailureStays | AI/ai_model/preprocessing/compute_prune_targets.py:21-24 | once the count of a split has failed, later files do not change the failure |
| Labels.Suggest | AI/ai_model/preprocessing/compute_prune_targets.py:34-37 | a suggestion keeps int(current * ratio) and deletes the rest, so keep and delete add up to the current count |
| Labels.CountPruneSplits | AI/ai_model/preprocessing/compute_prune_targets.py:14-26 | the counting fails exactly when one of valid and test fails; otherwise each split's count is recorded, and exactly the splits whose labels directory exists are recorded |
| Labels.SuggestAll | AI/ai_model/preprocessing/compute_prune_targets.py:33-37 | one suggestion per split, valid then test, from its recorded count or 0 when none was recorded |
| Labels.PruneTargets | AI/ai_model/preprocessing/compute_prune_targets.py:14-37 | the script fails exactly when counting valid or test fails; otherwise it suggests, per split, keeping int(count * 2800 / 12000) and deleting the rest |
| Mobile.FirstString | sd-belt-mobile-ui/sdbeltmobile/apiservice.cpp:681-688 | the first key in priority order whose value is a string gives that string, and there is one exactly when some key holds a string |
| QtJson.VariantText | sd-belt-mobile-ui/sdbeltmobile/apiservice.cpp:251-254 | QVariant::toString agrees with QJsonValue::toString except on numbers and booleans, which it renders (a number as Qt writes it, "true" or "false") where the JSON value gives "" |
| Mobile.Left | sd-belt-mobile-ui/sdbeltmobile/apiservice.cpp:690 | QString::left keeps at most n characters and leaves a shorter string whole |
| Mobile.ParseReply | sd-belt-mobile-ui/sdbeltmobile/apiservice.cpp:618-707 | a null reply gives an empty object, an error and the "Application Error" banner; a network error gives whatever object the body holds, an error, and a "Network Error (context): " banner with the same text; a banner goes with every error |
| Mobile.ParseReplyOnObject | sd-belt-mobile-ui/sdbeltmobile/apiservice.cpp:658-706 | a readable JSON object comes back as it is, and is reported as an error exactly when the context is not "/login" and status is missing, not 200, or result is missing |
| Mobile.ParseReplyOnNonObject | sd-belt-mobile-ui/sdbeltmobile/apiservice.cpp:658-665 | a body that is not a JSON object, without a network error, gives an empty object, "Invalid JSON response from server." and the matching application-error banner |
| Mobile.StatusErrorBanner | sd-belt-mobile-ui/sdbeltmobile/apiservice.cpp:677-696 | a status other than 200 gives the "API Error on" error and the "Server Error (context, Status n)" banner, both with the same detail |
| Mobile.StatusDetailPriority | sd-belt-mobile-ui/sdbeltmobile/apiservice.cpp:680-691 | the detail of a non-200 status is result before error before message |
| Mobile.FirstStringSkip | sd-belt-mobile-ui/sdbeltmobile/apiservice.cpp:681-688 | a key that is absent or not a string is passed over |
| Mobile.FirstStringPrefix | sd-belt-mobile-ui/sdbeltmobile/apiservice.cpp:413-416 | a string found among the first keys is the one found among all keys |
| Mobile.FirstStringTakesHead | sd-belt-mobile-ui/sdbeltmobile/apiservice.cpp:681-682 | a first key that holds a string gives that string |
| Mobile.CommandErrorAgreesWithParser | sd-belt-mobile-ui/sdbeltmobile/apiservice.cpp:413-418 | when the object carries result, error or message text, the start and stop handlers show the same detail parseReply reported |
| Mobile.Upper | sd-belt-mobile-ui/sdbeltmobile/apiservice.cpp:244 | upper-casing maps each character and keeps the length |
| Mobile.Lower | sd-belt-mobile-ui/sdbeltmobile/apiservice.cpp:267-270 | lower-casing maps each character and keeps the length |
| Mobile.CacheIcon | sd-belt-mobile-ui/sdbeltmobile/apiservice.cpp:251-264 | an icon found in the cache is the apple, potato or orange icon |
| Mobile.IconIsKnown | sd-belt-mobile-ui/sdbeltmobile/apiservice.cpp:242-273 | every key gets one of the four icons |
| Mobile.NamesIgnoreCase | sd-belt-mobile-ui/sdbeltmobile/apiservice.cpp:244-248 | "apple", "Potato" and "ORANGE" get their icons whatever the cache holds |
| Mobile.UpperIs | sd-belt-mobile-ui/sdbeltmobile/apiservice.cpp:244 | upper-casing gives the string whose characters are the upper-cased characters |
| Mobile.ImageIdFindsProduct | sd-belt-mobile-ui/sdbeltmobile/apiservice.cpp:251-263 | a key that is no fruit name but is a cached product's image id gets the icon of that product's id |
| Mobile.NoMatchNoCacheIcon | sd-belt-mobile-ui/sdbeltmobile/apiservice.cpp:251-264 | when no cached product's id or image id, read as QVariant text, equals the key case-insensitively, the cache gives no icon |
| Mobile.ProductById | sd-belt-mobile-ui/sdbeltmobile/apiservice.cpp:600-609 | a non-empty result is a cached product whose id, read as QVariant text (numbers included), is the argument |
| Mobile.NumericIdFound | sd-belt-mobile-ui/sdbeltmobile/apiservice.cpp:600-606 | a cached product with the number 5 as id is found by "5" when numbers render as their digits |
| Mobile.ProductByIdFirst | sd-belt-mobile-ui/sdbeltmobile/apiservice.cpp:600-606 | the lookup returns the first cached product with the id |
| Mobile.ProductByIdMissing | sd-belt-mobile-ui/sdbeltmobile/apiservice.cpp:600-608 | with no cached product whose id reads as the argument the lookup gives an empty map |
| Mobile.Enrich | sd-belt-mobile-ui/sdbeltmobile/apiservice.cpp:149-154 | an enriched scan keeps all its other fields and gains productName and productIcon |
| Mobile.ScansForRangeStep | sd-belt-mobile-ui/sdbeltmobile/apiservice.cpp:148-157 | the scans kept from position k are the k-th scan, enriched when wanted, followed by those kept after it |
| Mobile.KeepScans | sd-belt-mobile-ui/sdbeltmobile/apiservice.cpp:145-157 | the loop emits exactly the wanted scans, enriched, in their original order |
| Mobile.KeepScansStep | sd-belt-mobile-ui/sdbeltmobile/apiservice.cpp:148-157 | one loop step keeps the scans emitted so far plus those still to come equal to all the scans kept |
| Mobile.ScansForRangeFilter | sd-belt-mobile-ui/sdbeltmobile/apiservice.cpp:145-157 | with no product chosen every scan is kept; otherwise a scan is kept exactly when its productId, read as QVariant text, is the chosen one: every kept scan is wanted and every wanted scan comes out enriched; never more scans come out than went in |
| Mobile.NumericProductIdKept | sd-belt-mobile-ui/sdbeltmobile/apiservice.cpp:145-157 | a scan whose productId is the number 5 is kept when product "5" is chosen |
| Mobile.ScanStatistics | sd-belt-mobile-ui/sdbeltmobile/apiservice.cpp:163-201 | the request answers at once with an empty map exactly when a date is empty or invalid; its context is never empty and is the caller's when given |
| Mobile.ProductDetails | sd-belt-mobile-ui/sdbeltmobile/apiservice.cpp:208-215 | an empty id answers at once; otherwise the request goes to "/product/" followed by the id |
| Mobile.ApiService.constructor | sd-belt-mobile-ui/sdbeltmobile/apiservice.cpp:14-20 | the service starts with an empty product cache and the restart flag down |
| Mobile.ApiService.GetProductIcon | sd-belt-mobile-ui/sdbeltmobile/apiservice.cpp:242-273 | getProductIcon gives the icon of the key over the current cache |
| Mobile.ApiService.GetProductById | sd-belt-mobile-ui/sdbeltmobile/apiservice.cpp:600-609 | the early-return loop gives exactly the first cached product whose id reads as the argument, or an empty map |
| Mobile.ApiService.FilterScans | sd-belt-mobile-ui/sdbeltmobile/apiservice.cpp:145-157 | the wanted scans over the current cache, enriched, in order |
| Mobile.ApiService.OnScansForRange | sd-belt-mobile-ui/sdbeltmobile/apiservice.cpp:131-160 | nothing is emitted after a network error with an empty body; an empty list when the object is empty or has no result; otherwise the filtered scans |
| Mobile.ApiService.ProductsWithIcons | sd-belt-mobile-ui/sdbeltmobile/apiservice.cpp:369-378 | each cached product with its icon, in cache order |
| Mobile.ApiService.OnProducts | sd-belt-mobile-ui/sdbeltmobile/apiservice.cpp:355-381 | a reply with a result replaces the cache with it and emits every product with its icon; an empty or result-less reply keeps the cache and emits an empty list, or nothing after a network error |
| Mobile.ApiService.OnStartSystem | sd-belt-mobile-ui/sdbeltmobile/apiservice.cpp:399-425 | parseReply's banner comes first; then success reports the start, plus a finished restart when the flag was up; failure reports the handler's error text; either way the flag ends down and the cache is unchanged |
| Mobile.ApiService.OnStopSystem | sd-belt-mobile-ui/sdbeltmobile/apiservice.cpp:427-457 | parseReply's banner comes first; a successful stop asks for a new start exactly when the flag is up and otherwise reports the stop; a failed stop reports the error and, when the flag was up, a failed restart and lowers the flag |
| Mobile.Objects | sd-belt-mobile-ui/sdbeltmobile/apiservice.cpp:368 | the cache holds each element of the result array, read as a map, in order |
| Mobile.LookupIcon | sd-belt-mobile-ui/sdbeltmobile/apiservice.cpp:242-273 | the early-return loop gives exactly the icon getProductIcon's three steps define |
| Mobile.EnrichProducts | sd-belt-mobile-ui/sdbeltmobile/apiservice.cpp:369-378 | the loop gives each product with its icon, in order |
| Mobile.ProductWithIcon | sd-belt-mobile-ui/sdbeltmobile/apiservice.cpp:371-377 | a product's icon is looked up by its image id, or by its id when that is empty |
| Mobile.WithIcon | sd-belt-mobile-ui/sdbeltmobile/apiservice.cpp:371-377 | a product with its icon keeps every other field and gains iconChar holding the icon of its image id or id |
| Text.NatToString | AI/object_detection_deneme/utils/ArduinoSerial.cpp:197 | std::to_string of a non-negative value is a non-empty run of decimal digits with no leading zero |
| Text.IntToString | AI/object_detection_deneme/utils/ArduinoSerial.cpp:234 | std::to_string is non-empty and starts with a minus sign exactly when the value is negative |
| Text.DigitsValueOfNatToString | AI/object_detection_deneme/utils/ArduinoSerial.cpp:197 | the digits std::to_string writes read back as the same value |
| Text.NatToStringInjective | AI/object_detection_deneme/utils/ArduinoSerial.cpp:197 | different values are written as different digit strings |
| Text.SkipSpaces | AI/object_detection_deneme/utils/HttpServerHandler.cpp:43 | std::stoi skips exactly the leading C whitespace: what is left is a suffix that starts with no whitespace |
| Text.DigitRun | AI/object_detection_deneme/utils/HttpServerHandler.cpp:43 | std::stoi reads the longest prefix of decimal digits, and stops at the first non-digit |
| Text.DigitRunOfDigits | AI/object_detection_deneme/utils/HttpServerHandler.cpp:133 | a digit string followed by a non-digit has exactly its own digits as digit run |
| Text.StoiOfIntToString | AI/object_detection_deneme/utils/HttpServerHandler.cpp:43 | reading back with std::stoi any int written by std::to_string gives that int |
| Text.StoiOfNegative | AI/object_detection_deneme/utils/HttpServerHandler.cpp:43 | a minus sign followed by the digits of a magnitude that fits in int reads back as the negative value |
| Text.StoiStopsAtNonDigit | AI/object_detection_deneme/utils/HttpServerHandler.cpp:133-138 | std::stoi ignores whatever follows the digits, so "45abc" reads as 45 |
| Text.ContainsAppend | AI/object_detection_deneme/utils/ArduinoSerial.cpp:115 | a string containing a substring still contains it after text is appended |
| Text.ContainsPrepend | AI/object_detection_deneme/utils/ArduinoSerial.cpp:115 | a string containing a substring still contains it after text is prepended |
| Text.ContainsNeedsLength | AI/object_detection_deneme/utils/ArduinoSerial.cpp:115 | a string shorter than a substring cannot contain it |
| Text.IndexOf | AI/object_detection_deneme/object_detection.cpp:272-284 | std::string::find for one character gives the first position holding it, and npos exactly when no position does |
| Text.LineOf | AI/object_detection_deneme/utils/ArduinoSerial.cpp:147-167 | the reply line is the text up to the first newline or the end, and holds no newline |
| Text.UpToNul | AI/object_detection_deneme/utils/ArduinoSerial.cpp:107-111 | std::string of a zero-filled buffer is the prefix up to the first NUL, and holds no NUL |

## Left out

- Threads, barriers, atomics and mutexes in `run_preprocess`, `run_inference_async`, `grabLoop` and `main` are left out. The camera counters, the cooldown stamps and the flags are modelled as sequential state. The unsynchronised write to `threshold` from the HTTP thread is modelled as a plain assignment.
- `BoundedTSQueue` is not part of this model. Its implementation is not among the repository files here.
- OpenCV is left out, and its results are inputs:
  - `VideoCapture`, `Canny`, `HoughLinesP` (the line segments are given), `imencode` and JPEG decoding (the encoded and decoded frames are given);
  - `imshow`, `imwrite` and the resizing in `create_preprocessed_frame_item`;
  - `detectFirstVerticalLinesFromCenter`, which only draws.
- Camera 2 whitens the whole frame rather than the crop (object_detection.cpp:1066), and `Capture.Grab.Step` keeps this. Its first frame is therefore compared with the narrower cropped background and finds nothing (`Tone.WidthMismatchFindsNothing`); later frames are compared whole against whole, while the centre test still uses half the width between the edges.
- Capture.Grab.Step: a crop region that leaves the frame (a left edge past the last column) makes `cv::Rect` throw in the source; the step requires a region that does not, which the edges found on a background of the same width always give.
- Capture.Grab.Step: `detectFirstVerticalLinesFromCenter`, the buffer copies and `imshow` of each iteration are left out; the camera's difference threshold and reference colour are constructor arguments.
- Decision.DecisionEngine.CameraLost: a camera fails to open at start-up, before the start-up delay lets any frame through, so in practice the batch is empty when the count drops. The model does not assume this: it states what happens to a batch left full, which `OnInference` then never judges.
- QVariant::toString of a number (Qt's shortest decimal form) is a function parameter of the mobile lookups, so ids and productIds that are JSON numbers are compared as Qt renders them.
- Telemetry collection is left out, because it is file I/O and floating-point percentages: `get_cpu_temp`, `read_proc_stat`, `get_cpu_usage`, and the logging loops.
- Sockets, `termios` setup, timeouts and sleeps are left out. The connect result, the bytes sent, the received chunks and the characters that reach the serial port within the time window are parameters.
- `std::to_string(double)`, `std::stod`, `gmtime`, `std::round`, `QDateTime` parsing (to milliseconds since the epoch) and formatting, and `QString::number(double, 'f', 1)` are function parameters or given values. Integer formatting and `std::stoi` are modelled exactly, for ASCII text.
- Strings are sequences of characters standing for ASCII bytes:
  - no UTF-8 or UTF-16 encoding is modelled;
  - case mapping and the C whitespace classes cover ASCII only;
  - Python's `int()` is modelled for an optional sign and ASCII digits, without underscores or non-ASCII digits.
- `QString::arg` re-substitution is not modelled. A scan-log row is built as if each argument were inserted once, so an argument that itself contains `%1` is not expanded again.
- The Qt widgets, signals, pixmaps, style sheets and `QNetworkAccessManager` are left out. The model keeps:
  - the text and colour of each row;
  - the label texts, the button styles, the slider value and the posts each slot sends.
  - Slider range clamping is Qt's and is not modelled.
- `Logs::fetch`, the refresh timers and `SystemInfoRetriever` are network and UI glue, so they are left out.
- The mobile `login` and `fetchSystemInfo` reply handlers are left out. So are the reply handlers of `fetchScans`, `reverseSystem`, `setSystemAccuracy`, statistics and product details. Their error text follows the pattern of `Mobile.CommandError`, which takes the action's wording as a parameter. Their other work only emits signals. Building the request URLs, with their query strings and percent-encoding, is Qt's and is left out.
- The getters of `object_info`, `ScanRequestDTO` and `SystemLogMessageDTO` are datatype fields or class fields that are read directly, so they have no members of their own.
- The 255-byte limit of one `read()` in `readLoop` is not modelled. A chunk is whatever `read()` filled in.
- The order in which `glob` lists files is the order of each directory's sequence. The order of ties in `sorted(counts, key=int)` (for ids such as "4" and "04") is not fixed by the model; `Labels.SortIds` only promises int order and distinct ids.
- `Labels.Keep` takes the product `orig * ratio` as an exact real and rounds it down. Python computes the product in floating point first, so a product that lies just below an integer can round differently.
- The `reply` field of `SystemLogRetriever` has no initial value (Desktop/SystemLogRetriever.h:28). The model starts with no outstanding reply.
- `balance_count.py`, `delete_null.py`, `count_null.py` and `add_false_samples.py` are left out, because they copy and delete files. `dual_camera_test.cpp`, `Scan.java` and the server lifecycle of `httplib` are left out too.
- `UploadArduino` (a shell command) and the YOLO inference are left out.
- Mobile.ParseReply: its own contract covers only the null reply and the network error. The readable-object and unreadable-body cases are stated by `Mobile.ParseReplyOnObject`, `Mobile.StatusErrorBanner` and `Mobile.ParseReplyOnNonObject`.

## Findings

| source | as written | input that shows it | evidently intended | confidence | as-written member | corrected member |
|---|---|---|---|---|---|---|
| AI/object_detection_deneme/object_detection.cpp:960-969 | A camera that fails to open decrements `active_cameras` but never tests it for zero. Only a camera that ends its loop normally sets `all_cameras_done` (:1198-1203). | All three cameras fail to open. `active_cameras` reaches 0 and `all_cameras_done` stays false, so the loops at :435 and :1437 never end. | The failure path, like the normal end, raises `all_cameras_done` when the last active camera stops. | not executed | Capture.AllFailedNeverDone | Capture.AllOutcomesEndTheRun |
