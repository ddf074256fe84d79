# Verified model of the control logic in a set of computer-vision demo scripts

The repository is a set of desktop demos. Each one opens a camera or a video,
calls a third-party detector and draws the results. Once the detector outputs
and the clock are treated as plain inputs, four small pieces of deterministic
logic remain. This project models each of them in Dafny and proves what they
promise.

- **Blink detector** (`READ_GITHUB/MAIN_CODE.py`, module `Blink`). Each frame
  of the loop does the following:
  - It resets the counters when no face is found.
  - It counts runs of closed-eye faces (eye aspect ratio below 0.2) and
    completed blinks.
  - It speaks an alert once the eyes have been missing for `alert_duration`
    seconds. The alert is latched and repeats every `cooldown_duration`
    seconds.
  - It logs a "True Blink"/"No Blink" label.

  `Observe` is the pure specification of one frame. The class `BlinkTracker`
  holds the module-level counters as fields, and its `Step` method is proved
  to update them exactly as `Observe` says.
- **Traffic-light controller** (`ROAD_GITHUB/accuarcy.py`, module `Traffic`).
  It covers:
  - the threshold check that starts processing;
  - the ground-truth table;
  - the `y_true`/`y_pred` lists;
  - the per-frame loop of `process_video`: active lights, blinking on a
    shared clock, the emergency limit, pausing, frame numbering and the
    30-tick fallback timer.

  `Tick` specifies one frame. The class `TrafficController` performs it in
  place, and its invariant `Inv` holds across every frame.
- **QR-code helpers** (`github/main.py`, module `QrCodes`). It covers:
  - the link test;
  - the vCard 3.0 contact payload (RFC 2426: FN in section 3.1.1, TEL in
    section 3.3.1);
  - the VEVENT event payload (RFC 5545 section 3.6.1);
  - the menu choice;
  - the output paths;
  - the decode fallback;
  - which decoded values a camera or file scan acts on.
- **Traffic-sign lookup** (`traffic_sign/main.py`, module `TrafficSign`). It
  covers the 43-class name table with its `'Unknown'` default, the
  image-extension filter and the strict probability threshold.

`Strings` supplies `startswith`/`endswith`, and `split('\n')` with its inverse
(joining lines). `Wrappers` supplies `Option`.

Time is a whole number: seconds in the blink detector and milliseconds in the
traffic controller, where the 0.5 s blink interval becomes 500. The blink
detector's clock is read once per frame (`now`), and speaking an alert takes
no time; "## Left out" says what this does not capture.

Behaviour of the code worth knowing, all of it modelled as written:
- `MAIN_CODE.py` line 134 resets the closed-eye run in every frame in which the
  eye cascade found eyes. A blink spread over several frames is therefore only
  counted when the cascade missed the eyes while they were closed.
  `CarriedRunScenario` shows that frames open, closed, closed, open with eyes
  found throughout count no blink.
- With a face in view, the run carries into the next frame only when the eye
  cascade found no eyes (line 134); a frame without a face resets it (line 87).
- A frame without a face resets `count`, `total`, `audio_played` and
  `last_alert_time` but keeps `last_eye_detection_time` (lines 83-90).
- With a cooldown of 0 or less, every frame in which the first alert fires
  also fires the repeat alert (`ZeroCooldownDoubleAlert`). `OneAlertPerFrame` proves
  that a positive cooldown rules this out.
- The contact payload has no N line, and both payloads separate lines with
  `\n` rather than CRLF. The event payload has no enclosing VCALENDAR. The
  model builds the text exactly as the code writes it.

## Model

| member | source | states |
|---|---|---|
| Blink.BlinkTracker.constructor | READ_GITHUB/MAIN_CODE.py:61-67 | detection starts with zero run, zero blinks, alert unlatched, last alert time 0, eye timer at the start time, frame 0 |
| Blink.BlinkTracker.Step | READ_GITHUB/MAIN_CODE.py:79-144 | one loop iteration updates the counters in place exactly as the frame specification `Observe` does, landmark loop included, and returns the frame's blink flag, alerts and log row |
| Blink.EarStep | READ_GITHUB/MAIN_CODE.py:115-121 | one landmark face: a blink is flagged iff it or an earlier face is closed, the run is positive iff this face is closed, and the total grows, by one, exactly when an open face ends a run |
| Blink.EarFold | READ_GITHUB/MAIN_CODE.py:107-121 | over all landmark faces of a frame the total grows by at most one per face and a flagged blink stays flagged |
| Blink.Observe | READ_GITHUB/MAIN_CODE.py:79-144 | one frame advances the frame number, which the logged row carries; the eye timer becomes now iff a face and eyes were found; an alert fires only with a face and no eyes, and it latches and stamps the alert time with now |
| Blink.EarFoldMeaning | READ_GITHUB/MAIN_CODE.py:107-121 | after the landmark loop the run is the number of trailing closed faces (plus the carried run if every face is closed), the total grows by the number of closed-to-open transitions, and a blink is detected iff some face is closed |
| Blink.CompletionsBound | READ_GITHUB/MAIN_CODE.py:115-121 | a frame completes at most one blink per landmark face |
| Blink.FaceLossResets | READ_GITHUB/MAIN_CODE.py:83-95 | a frame with no face sets count, total and last alert time to 0 and the latch to false, keeps the eye timer, and reports no blink and no alert |
| Blink.FrameWithFace | READ_GITHUB/MAIN_CODE.py:95-134 | with a face, the new total is the old one plus the completed runs, a blink is reported iff some face is closed, and the run is 0 when eyes were found, else carried as the landmark loop leaves it |
| Blink.TotalMonotone | READ_GITHUB/MAIN_CODE.py:115-121 | with a face in view the blink total never decreases and grows by at most the number of landmark faces |
| Blink.RunTotalMonotone | READ_GITHUB/MAIN_CODE.py:74-144 | over any sequence of frames that all have a face, the final total is at least the initial one |
| Blink.EyesFoundClears | READ_GITHUB/MAIN_CODE.py:132-134 | after a frame where the eye cascade found eyes, the run is 0, the latch is released, the eye timer is now, and no alert fires |
| Blink.FirstAlertRule | READ_GITHUB/MAIN_CODE.py:123-131 | the first alert fires iff there is a face, no eyes, at least alert_duration seconds since eyes were last seen, and the latch was off; it latches and sets the last alert time to now |
| Blink.RepeatAlertRule | READ_GITHUB/MAIN_CODE.py:136-139 | the repeat alert fires iff there is a face, no eyes, the latch is on and cooldown_duration has passed since the last alert; it sets the last alert time to now, which otherwise stays unless the face is lost |
| Blink.LatchRule | READ_GITHUB/MAIN_CODE.py:86-134 | after a frame the alert latch is set exactly when a face is in view, the eyes are missing, and the latch was already set or the first alert fired |
| Blink.OneAlertPerFrame | READ_GITHUB/MAIN_CODE.py:127-139 | with a positive cooldown the first and the repeat alert never fire in the same frame |
| Blink.ZeroCooldownDoubleAlert | READ_GITHUB/MAIN_CODE.py:127-139 | with a cooldown of 0 or less, in any state and frame, the first alert is always followed by the repeat alert in the same frame |
| Blink.LoggedLabels | READ_GITHUB/MAIN_CODE.py:141-144 | the two logged columns are equal, the label is 'True Blink' iff a blink was detected, and the row carries the incremented frame number |
| Blink.LatchedNoFirstAlert | READ_GITHUB/MAIN_CODE.py:74-139 | starting latched, over any run of frames with a face and no eyes, no frame fires the first alert and the latch stays set, so only the cooldown repeat speaks again |
| Blink.RunAppend | READ_GITHUB/MAIN_CODE.py:74-144 | running two stretches of frames one after the other gives the same final counters and the same outcomes, in order, as running them as one stretch |
| Blink.AlertScenario | READ_GITHUB/MAIN_CODE.py:123-139 | with a 5 s alert and a 3 s cooldown and eyes missing from t = 0, alerts are spoken at t = 5 and t = 8 and at no other second up to 8 |
| Blink.CarriedRunScenario | READ_GITHUB/MAIN_CODE.py:115-134 | open, closed, closed, open counts one blink when the closed frames miss the eyes, and none when the eyes are found in every frame |
| Traffic.StartProcessing | ROAD_GITHUB/accuarcy.py:44-56 | processing starts iff all three entries are integers with yellow < red < max; otherwise the invalid-numbers or the invalid-order error is shown, each exactly in its own case |
| Traffic.ReadGroundTruth | ROAD_GITHUB/accuarcy.py:62-70 | the table holds exactly the frames that appear in the rows, and each frame maps to the count of the last row naming it |
| Traffic.Labels | ROAD_GITHUB/accuarcy.py:73-74 | the list has length n and element i is the value stored for frame i+1, or 0 when absent |
| Traffic.MetricLists | ROAD_GITHUB/accuarcy.py:72-74 | y_true and y_pred both have length len(predictions); element i is the ground truth, resp. prediction, for frame i+1 or 0 |
| Traffic.PredictionsListed | ROAD_GITHUB/accuarcy.py:72-74 | when the predictions hold exactly frames 1..n, y_pred has length n and lists them in frame order without any default 0 |
| Traffic.Activity | ROAD_GITHUB/accuarcy.py:190-200 | red is active iff count >= red threshold; yellow iff count <= yellow threshold and count < red threshold; never both |
| Traffic.BlinkLights | ROAD_GITHUB/accuarcy.py:202-209 | a light toggles iff it is active and the blink interval has passed since the shared last blink time (red only if yellow did not toggle), the last blink time becomes now iff a light toggled, and at most one light toggles |
| Traffic.Display | ROAD_GITHUB/accuarcy.py:216-228 | an active lit light is shown (yellow first) and leaves lights and timer alone; otherwise the timer counts down, and at 0 it toggles both lights and restarts at 30; the timer stays within [0, 30] |
| Traffic.InitialSignalInv | ROAD_GITHUB/accuarcy.py:114-122 | the loop starts unpaused at frame 1 with no predictions and the timer at 30, which satisfies the loop invariant |
| Traffic.TickInv | ROAD_GITHUB/accuarcy.py:176-240 | every frame keeps the timer in [0, 30], the predictions keyed by exactly the frames processed, and pausing only after a processed frame |
| Traffic.ProcessedFrame | ROAD_GITHUB/accuarcy.py:181-214 | an unpaused frame stores its count under the current frame number, advances the frame number by one, raises the emergency iff count > max limit, and sets the active flags by the thresholds |
| Traffic.PausedFrame | ROAD_GITHUB/accuarcy.py:181-214 | a paused frame changes neither the frame number, the predictions, the blink clock nor the active flags, and raises no emergency |
| Traffic.KeyRule | ROAD_GITHUB/accuarcy.py:236-240 | 'p' toggles the pause, 'q' stops the loop, any other key changes neither |
| Traffic.RunSignalFrames | ROAD_GITHUB/accuarcy.py:175-240 | over any run the invariant holds, the frame number advances by the number of unpaused frames, and len(predictions) equals the number of frames processed |
| Traffic.ProcessFrame | ROAD_GITHUB/accuarcy.py:181-214 | an unpaused frame adds exactly its own frame number to the predictions, reports a count change iff the count differs from the previous one and remembers the count, never activates both lights, and leaves the pause flag and the fallback timer alone |
| Traffic.ShowFrame | ROAD_GITHUB/accuarcy.py:216-228 | the display step changes only the two lights and the timer, changes nothing when a light is shown, and keeps the timer within [0, 30] |
| Traffic.Tick | ROAD_GITHUB/accuarcy.py:176-240 | a frame is processed iff the loop was not paused; the predictions gain exactly the current frame number when processed and nothing otherwise; a count change or emergency is reported only for a processed frame |
| Traffic.TrafficController.constructor | ROAD_GITHUB/accuarcy.py:114-122 | the controller starts in the initial loop state and satisfies its invariant |
| Traffic.ProcessFrameInv | ROAD_GITHUB/accuarcy.py:181-214 | the detection part of a frame keeps the loop invariant |
| Traffic.TrafficController.Process | ROAD_GITHUB/accuarcy.py:181-214 | the detection part of a frame, run only when not paused, keeps the invariant and updates the fields in place exactly as `ProcessFrame` specifies |
| Traffic.TrafficController.BlinkActive | ROAD_GITHUB/accuarcy.py:202-209 | the lights and the shared blink clock change in place exactly as `BlinkLights` specifies, and no other field changes |
| Traffic.TrafficController.Show | ROAD_GITHUB/accuarcy.py:216-228 | the display part of a frame, run paused or not, keeps the invariant and updates lights and timer in place exactly as `ShowFrame` specifies |
| Traffic.TrafficController.Frame | ROAD_GITHUB/accuarcy.py:176-240 | one loop iteration keeps the invariant and leaves the fields and report exactly as `Tick` specifies |
| QrCodes.IsLink | github/main.py:106-107 | a text is a link iff it starts with "http" or with "www" |
| QrCodes.IsLinkExtend | github/main.py:106-107 | appending text to a link leaves it a link |
| QrCodes.ContactPayload | github/main.py:229-234 | the contact text starts with "BEGIN:VCARD" and a line break, ends with a line break and "END:VCARD", and is 42 characters longer than name and number together |
| QrCodes.ContactPayloadJoin | github/main.py:229-234 | the contact payload is the five lines BEGIN:VCARD, VERSION:3.0, FN:name, TEL:number, END:VCARD joined by "\n" |
| QrCodes.ContactPayloadLines | github/main.py:229-234 | splitting the payload on "\n" gives back those five lines, with the name and number recoverable, when neither value contains a line break |
| QrCodes.EventPayload | github/main.py:236-241 | the event text starts with "BEGIN:VEVENT" and a line break, ends with a line break and "END:VEVENT", and is 114 characters longer than the event name and text together |
| QrCodes.EventPayloadJoin | github/main.py:236-241 | the event payload is BEGIN:VEVENT, SUMMARY, the fixed DTSTART, DTEND and LOCATION, DESCRIPTION, END:VEVENT joined by "\n" |
| QrCodes.EventPayloadLines | github/main.py:236-241 | splitting the payload on "\n" gives back those seven lines, with event name and text recoverable, when neither contains a line break |
| QrCodes.ChoiceLabel | github/main.py:213-227 | a label exists exactly for choices 1 to 6 |
| QrCodes.ChoiceLabelInjective | github/main.py:213-224 | distinct valid choices have distinct labels |
| QrCodes.UserInput | github/main.py:211-227 | a non-integer answer fails, a choice outside 1..6 exits, and a valid choice yields its label with its payload: 1 to 3 the typed text, 4 the contact payload, 5 the event payload, 6 the pair ("Face Detection", "Face Detection") |
| QrCodes.GeneratedPath | github/main.py:46-47 | the generated file lies in output/selection/, ends in .png and has the length of its parts |
| QrCodes.GeneratedPathRoundTrip | github/main.py:46-47 | type and timestamp are recovered from the generated path, so different timestamps never share a file |
| QrCodes.FaceQrPath | github/main.py:306-310 | the face QR file lies in output/ and ends in _qr_code.png |
| QrCodes.FaceQrPathInjective | github/main.py:306-310 | distinct image names give distinct face QR files |
| QrCodes.DecodeQrCode | github/main.py:190-195 | the first decoded text on success, "Decoding failed" otherwise |
| QrCodes.DecodeAgreesWithScanFile | github/main.py:124-132 | on a successful detection the decode fallback returns the same text that a file scan processes and shows |
| QrCodes.ProcessScanned | github/main.py:142-155 | a scanned text is opened in the browser iff it is a link; other text is ignored |
| QrCodes.FirstLink | github/main.py:78-92 | the index of the first link among the decoded texts, or their number when there is none |
| QrCodes.ScanCameraFrame | github/main.py:77-92 | each decoded text is processed in order up to and including the first link, and the scan ends iff some decoded text is a link |
| QrCodes.ScanFile | github/main.py:124-132 | only the first decoded text is processed and shown, and only when decoding succeeded with at least one text |
| QrCodes.GenerateQrCode | github/main.py:42-49 | a QR image is written iff the choice is 1..6; it encodes exactly the text the menu choice produced, and goes to the path built from that choice's label and the timestamp; a non-integer choice fails |
| TrafficSign.ClassName | traffic_sign/main.py:28-47 | the name is not 'Unknown' exactly for classes 0 to 42 |
| TrafficSign.ClassIndexOfName | traffic_sign/main.py:29-46 | each of the 43 names leads back to its own class index |
| TrafficSign.ClassNameInjective | traffic_sign/main.py:29-46 | the 43 names are pairwise distinct |
| TrafficSign.ClassNameEntries | traffic_sign/main.py:34-47 | 13 is 'Yield', 14 'Stop', 17 'No entry'; -1 and 43 are 'Unknown' |
| TrafficSign.IsImageFile | traffic_sign/main.py:55-56 | a file name qualifies only if it has at least four characters and its last four are .jpg, jpeg, .png, .bmp or .gif |
| TrafficSign.IsImageFileMeaning | traffic_sign/main.py:55-56 | a file is considered iff its name ends with one of .jpg, .jpeg, .png, .bmp, .gif |
| TrafficSign.UpperCaseSkipped | traffic_sign/main.py:56 | the extension test is case-sensitive: "sign.JPG" is skipped and "sign.jpg" is not |
| TrafficSign.Label | traffic_sign/main.py:63-66 | a prediction is labelled, with its class name, iff its probability is strictly above 0.5 |
| TrafficSign.ThresholdIsStrict | traffic_sign/main.py:64 | a probability of exactly 0.5 is not labelled |

## Left out

- Detectors: Haar cascades, the dlib detector and landmark predictor, the eye-aspect-ratio formula, the YOLO network with non-maximum suppression, the pickled sign classifier, and QR encoding and decoding. These are foreign calls or floating-point code. Their outputs are parameters: face found, eyes found, one below-threshold flag per landmark face, the vehicle count, the class index and probability, and the decoded texts.
- Camera and video capture, windows, drawn overlays, the video writer, and the end-of-video break. Each frame's inputs are parameters, and the caller stops the loop.
- Speech, popups and the browser. These appear as returned decisions: `firstAlert`/`repeatAlert`, `emergency`, `ScanAction.OpenLink` and `StartOutcome.ShowError`.
- File writes and reads: the blink CSV log, the emergency log, the scanned-links log, QR image files and the ground-truth CSV. The logged row is returned. Ground-truth rows come in already parsed, so a non-integer cell (a `ValueError` in the source) is not modelled.
- Dialogs: the durations, the alert text, the thresholds and the QR answers are parameters. A cancelled integer dialog sets its duration to `None`, and the comparison at line 127 (or 136 for the cooldown) then raises `TypeError`. A duration whose dialog is never opened stays undefined, and the same lines raise `NameError`. A cancelled QR answer puts the text "None" into a payload. The model takes integers and strings.
- Blink.BlinkTracker.Step: reads the clock once per frame (`now`), so the eye timer, the elapsed time of line 125 and the clock of line 136 are the same reading. In the source they are separate calls to `time.time()`.
- Blink.BlinkTracker.Step: speaking takes no time. In the source lines 131 and 139 stamp `last_alert_time` only after `engine.runAndWait()` returns, so the cooldown runs from the end of the previous alert. `AlertScenario` (repeat at t = 8 after a first alert at t = 5) holds only when speaking is instantaneous. With a 2 s utterance the source stamps about 7, and a frame at t = 8 does not repeat.
- Blink.BlinkTracker.Step: the clock counts whole seconds. The source's clock is a float, and line 136 compares the untruncated difference with the cooldown.
- Traffic.Tick: the thresholds are fixed for the session. The source re-reads the entry fields on every frame.
- Traffic: precision, recall and F1 (floating point, sklearn) are left out. Only the lists passed to them are modelled.
- QrCodes.ScanCameraFrame: models one camera frame. The outer camera loop and its Esc key are I/O.
- QrCodes.GeneratedPath: uses "/" as the separator that `os.path.join` inserts on POSIX systems.
- `save_and_show_cropped_qr`: reads a name that is never defined (line 159), so it always ends in its error branch and changes nothing. It is left out.
- QrCodes.DecodeQrCode: its only caller is `save_and_show_cropped_qr`, which fails at line 159 before reaching the call at line 180, so the program never runs the fallback. It is modelled on its own terms.
- What `generate_qr_code` does after writing the image (popup, speech, optional rescan) is left out. So is the face-capture loop of `detect_face_and_convert`, apart from the path it builds.
- QrCodes.ContactPayloadLines and QrCodes.EventPayloadLines: assume values without line breaks. The source inserts values unescaped, so a line break in a value adds lines to the payload.
- TrafficSign: the folder and webcam loops, image loading, and the percentage text drawn with the label are left out (I/O and float formatting).
- `READ_GITHUB/RESULT.py` and `ROAD_GITHUB/Vehicle-Counting-in-Lanes-main/pedistrain.py` are not part of this model. The first is a table filter with a float percentage. The second is a capture, detect and draw loop.
