# ESP32-CAM viewers: control and annotation logic

Three small Kivy apps show snapshots polled from an ESP32-CAM over HTTP:

- `azouz.py` polls on a clock event, can record the stream to an XVID `.avi`
  file, and has a slider for the frame rate;
- `main.py` streams through `cv2.VideoCapture` at 30 updates per second,
  runs an imageai YOLOv3 detector, and draws a box and a label per
  detection plus a "Person detected" / "No person detected" summary;
- `pr_2.py` streams at 60 updates per second, runs an SSD detector through
  OpenCV's DNN module, and draws and measures a person's box against the
  frame centre.

This project models the control and decision logic of those apps:

- the start/stop toggle with its buttons and clock event;
- the recording controller with its writer, frame rate, label and rescheduling;
- the per-frame annotation decisions;
- class-name parsing, label lookup and the centre/error arithmetic.

The I/O is represented by parameters:

- a fetch or capture outcome;
- the detector's output;
- the wall-clock time;
- the class-file text.

Kivy's `Clock` is a registry of `(callback, rate)` events (`Clock`). Buttons
are booleans. A texture is its size. A video writer is its file name,
codec, rate and frame size. Drawing calls are a sequence of draw commands
(`Drawing`).

Modules:

- `Clock` is the clock registry.
- `Decimal` covers decimal text and zero padding.
- `Drawing` holds frames, boxes and draw commands.
- `Streaming` holds the start/stop control shared by `main.py` and `pr_2.py`.
- `RecorderApp` models `azouz.py`.
- `DetectorApp` models `main.py`.
- `TrackerApp` models `pr_2.py`.

Some facts about the source that the model keeps as they are:

- `azouz.py` has no detector and no way to stop the stream; its poll
  event runs from `build` on.
- `azouz.py` hands every fetched frame to the writer unchecked, whatever
  its size.
- No app checks whether its detection model loaded.
- `pr_2.py:75` schedules 60 updates per second, though its comment says
  30. The model uses 60.

## Model

| member | source | states |
|---|---|---|
| `Clock.ScheduleInterval` | azouz.py:52 | scheduling adds exactly one event for the callback, at the given rate, and leaves every other callback's events alone |
| `Clock.Unschedule` | azouz.py:109 | unscheduling removes every event of the callback and keeps every other event |
| `Clock.CountPositive` | main.py:66 | a callback has a scheduled event exactly when its count is positive (used to show that no update event remains after a stop) |
| `Clock.Reschedule` | azouz.py:109-110 | cancel-then-schedule leaves exactly one event for the callback, at the new rate, whatever was scheduled before |
| `Clock.TwoRateChanges` | azouz.py:105-110 | two slider moves in a row leave one event at the second rate and none at the first |
| `Decimal.NatToString` | azouz.py:108 | decimal text of a rate: non-empty digits, no leading zero, parsing back to the number |
| `Decimal.PadLeft` | azouz.py:85 | a zero-padded field has exactly the requested width, is all digits, and parses back to the number |
| `Streaming.StreamControls.constructor` | main.py:24-38 | initially idle, Start enabled, Stop disabled, nothing scheduled; the button/flag/timer invariant holds |
| `Streaming.StreamControls.StartStreaming` | main.py:52-58 | a no-op while streaming; from idle, sets the flag, disables Start, enables Stop and schedules one event; afterwards exactly one event exists, at the control's rate |
| `Streaming.StreamControls.StopStreaming` | main.py:60-66 | a no-op while idle; from streaming, clears the flag, enables Start, disables Stop and unschedules; afterwards no event for the callback remains in the registry |
| `Streaming.Replay` | main.py:52-66 | after any run of presses from the initial state the flag is the last press's, and one event is scheduled if streaming and none otherwise |
| `DetectorApp.Esp32CamApp.Build` | main.py:24-38 | the app starts idle, with Start enabled, Stop disabled, nothing scheduled and no texture |
| `DetectorApp.Esp32CamApp.StartStreaming` | main.py:52-58 | streaming afterwards, with one update event at 30 per second and the buttons swapped; unchanged if already streaming |
| `DetectorApp.Esp32CamApp.StopStreaming` | main.py:60-66 | idle afterwards with no update event and the buttons swapped back; unchanged if already idle |
| `DetectorApp.DrawDetections` | main.py:91-95 | the drawing loop produces exactly the per-detection commands, in detection order |
| `DetectorApp.DetectionOpsShape` | main.py:91-95 | detection i contributes a rectangle from (x1,y1) to (x2,y2) at position 2i and its label at (x1, y1-10) at position 2i+1; one rectangle per detection; no fixed-text command |
| `DetectorApp.PersonDetected` | main.py:98 | true exactly when some detection's class name equals "person" |
| `DetectorApp.FrameAnnotation` | main.py:90-104 | a frame gets 2·\|detections\|+1 commands and \|detections\| rectangles; exactly one summary text, last, at (10,30); it is "Person detected" in (0,255,0) exactly when a person is detected, and "No person detected" in (0,0,255) otherwise |
| `DetectorApp.Esp32CamApp.UpdateImage` | main.py:68-114 | if the capture does not open, nothing changes. A failed read releases the capture and leaves the texture alone. A grabbed frame is annotated as above and creates the texture, sized to the frame, only when there is none. It is then blitted and the capture is released |
| `TrackerApp.RStrip` | pr_2.py:46 | the result is a prefix of the text, does not end in the character, and everything removed is that character |
| `TrackerApp.Split` | pr_2.py:46 | at least one part, no part holds the separator, empty text gives one empty part, and a text not ending in the separator has a non-empty last part |
| `TrackerApp.JoinSplit` | pr_2.py:46 | joining the parts of a split restores the text |
| `TrackerApp.SplitJoin` | pr_2.py:46 | splitting a join of separator-free parts restores the parts |
| `TrackerApp.ParseClassNames` | pr_2.py:43-46 | class names are never an empty list and none holds a newline. Joined with newlines they give the file text without its trailing newlines. An empty file gives one empty name, and a list of several names never ends in an empty one |
| `TrackerApp.ClassLabel` | pr_2.py:112 | id k in 1..\|names\| names names[k-1]; id 0 wraps to the last name; the lookup fails exactly for ids above \|names\| or below 1-\|names\| |
| `TrackerApp.FirstIndex` | pr_2.py:101-104 | None exactly when the id is absent; otherwise the first position holding it |
| `TrackerApp.ErrorX` | pr_2.py:94-118 | frame centre minus box centre. It is zero exactly when the centres coincide and negative exactly when the box centre is right of the frame centre. For a box inside the frame it lies between width/2 - width and width/2 |
| `TrackerApp.TrackPersonAsWritten` | pr_2.py:101-118 | draws only when class id 1 occurs. It then outlines bbox[0] and labels it with names[0] at (bbox[0].x+10, bbox[0].y+30). Its error is bbox[0]'s ErrorX. The lookup fails exactly when the name list is empty |
| `TrackerApp.AsWrittenIgnoresPersonIndex` | pr_2.py:107 | whenever the first person is not the first detection, the as-written branch outlines and measures bbox[0] while the intended one uses bbox[d] with d > 0 |
| `TrackerApp.AsWrittenMeasuresWrongBox` | pr_2.py:107-118 | with class ids [3, 1], the as-written branch outlines the first box and reports +300, the intended one outlines the person's box and reports -300 |
| `TrackerApp.TrackPerson` | pr_2.py:100-118 | draws only when class id 1 occurs. It then outlines the box of the first person detection d and labels it with names[0] at (x+10, y+30). Its error is that box's ErrorX. The lookup fails exactly when the name list is empty |
| `TrackerApp.ParsedNamesNeverFailLookup` | pr_2.py:46-112 | with names parsed from any class file, the person branch never raises an IndexError |
| `TrackerApp.Esp32CamApp.Build` | pr_2.py:25-61 | class names are those parsed from the file; idle, Start enabled, Stop disabled, nothing scheduled |
| `TrackerApp.Esp32CamApp.StartStreaming` | pr_2.py:69-75 | streaming afterwards, with one update event at 60 per second and the buttons swapped; unchanged if already streaming |
| `TrackerApp.Esp32CamApp.StopStreaming` | pr_2.py:77-83 | idle afterwards with no update event and the buttons swapped back; unchanged if already idle |
| `RecorderApp.FilenameRoundTrip` | azouz.py:85 | the file name is "stream_", 14 digits and ".avi", and the digits give back the timestamp, so distinct times name distinct files |
| `RecorderApp.InitialLabel` | azouz.py:31 | the initial label "Frame Rate: 30" is the label of rate 30 |
| `RecorderApp.Esp32CamApp.Build` | azouz.py:24-52 | initially not recording, with no writer and rate 30 with its label. Start is enabled, Stop disabled, there is no texture, and exactly one poll event runs at 30 |
| `RecorderApp.Esp32CamApp.UpdateStream` | azouz.py:56-71 | nothing changes unless recording. While recording, a fetched frame becomes the texture and is written when a writer is open. A failed fetch or decode changes nothing. Buttons, rate, timers and writer are untouched |
| `RecorderApp.Esp32CamApp.UpdateStreamIntended` | azouz.py:57-69 | every fetched frame becomes the texture; it is written while recording with an open writer |
| `RecorderApp.Esp32CamApp.StartRecording` | azouz.py:73-92 | with no texture, nothing changes. Otherwise it records, disables Start and enables Stop. It opens an XVID writer named after the time, at the current rate and the texture's size |
| `RecorderApp.Esp32CamApp.StopRecording` | azouz.py:94-103 | from any state: not recording, Start enabled, Stop disabled, no writer; release is logged exactly when a writer was open |
| `RecorderApp.Esp32CamApp.UpdateFrameRate` | azouz.py:105-110 | the rate becomes int(value), stays in 1..60, and the label shows it. The poll event is cancelled and rescheduled, so exactly one runs, at the new rate |
| `RecorderApp.RunAsWritten` | azouz.py:56-77 | from build, under any sequence of presses, slider moves and polls, the app is never recording and writes nothing |
| `RecorderApp.RunIntended` | azouz.py:57-92 | with the intended update, one good poll then Start Recording records, into a writer sized like the frame at 30 fps named after the press time |

## Left out

- Network fetch and image decoding are left out. `urlopen`, `imdecode` and
  `VideoCapture` are foreign I/O. Their outcome is a parameter: a frame's
  size, or a failure.
- Object detection is left out. The imageai YOLOv3 model and the OpenCV
  DNN model with its input size, scale, mean and channel swap are opaque
  libraries. Their detections are parameters.
- Model and class-file loading is left out: files on disk. The class-file
  text is a parameter of `TrackerApp.Esp32CamApp.Build`. The model loads
  are not modelled, and neither is any failure of them.
- Pixel work is left out: colour conversion, the pixels drawn by
  `rectangle` and `putText`, `imshow`, texture creation and `blit_buffer`.
  A draw is an abstract command and a texture is its size. Blitting a frame
  of another size into an existing texture is not modelled.
- Widget layout and Kivy internals are left out. Buttons are booleans.
  Each app's clock registry holds only its own events.
- The float intervals (1/30, 1/60, 1/frame_rate) are left out. A clock
  event carries the integer rate instead.
- The `.2f` rendering of a detection's probability is left out. The label
  carries the name and the probability itself.
- imageai's box points are taken as integers. The `int` conversion of
  non-integer points is not modelled.
- `pr_2.py`'s `while True` loop with `imshow`, `waitKey` and the Esc exit
  is left out. The loop blocks the update event until Esc is pressed;
  the event then returns and the next clock tick enters the loop again.
  `TrackerApp.TrackPerson` models one pass of the person branch.
  The computed error is not used by anything in the source.
- The detection confidences of `pr_2.py` are left out. They are zipped
  but never used.
- The class-id array shape returned by OpenCV is left out. The model
  takes a flat list of ids, the shape the `index(1)` lookup needs.
- Video encoding and file writing are left out. A writer records its
  parameters, and each `write` and `release` call is logged.
- `datetime.now()` is left out. The time is a parameter of
  `StartRecording`.
- `RecorderApp.Esp32CamApp.StartRecording`: requires a timestamp with a
  four-digit year. `strftime`'s padding of earlier years is
  platform-dependent.
- `RecorderApp.Esp32CamApp.UpdateFrameRate`: requires a slider value in
  1..60. The slider's bounds and step guarantee that. `int(value)` is the
  floor, which equals truncation for positive values.
- Exceptions from `VideoWriter.write` are left out. OpenCV's write does
  not raise, so the model never has one.
- Printing of error messages is left out.

## Findings

| source | as written | input that shows it | evidently intended | confidence | as-written member | corrected member |
|---|---|---|---|---|---|---|
| azouz.py:58 | `update_stream` fetches and sets the texture only while recording, but `start_recording` refuses to start without a texture, so the stream is never shown and recording can never begin (the comment at azouz.py:57 states a different guard) | any sequence of events after `build`, e.g. a successful poll then Start Recording: recording stays false | refresh the texture on every poll, write the frame while recording | high; not executed | `RecorderApp.RunAsWritten` | `RecorderApp.RunIntended` |
| pr_2.py:107 | the loop zips the one-element class id and confidence of the first person `d` with the whole box list, so it runs once with `bbox[0]`, the first detection's box | class ids [3, 1], boxes (0,0,40,40) and (600,100,40,80), frame width 640: the first box is outlined as the person and the error is +300 instead of -300 | outline and measure `bbox[d]`, the first person's box (the comment on line 106 also admits outlining every person; the error to steer by is one value, so the model takes the first) | medium (assumes the flat class-id array that the `index(1)` call needs); not executed | `TrackerApp.AsWrittenMeasuresWrongBox` | `TrackerApp.TrackPerson` |
