/**
 * The control logic of the traffic-light application (ROAD_GITHUB/accuarcy.py):
 * the threshold check that starts processing, the ground-truth table, the
 * label lists handed to the metric functions, and the per-frame light,
 * emergency, pause and fallback-timer logic of process_video.
 *
 * The vehicle detector, the video, the windows and the files are outside
 * the model: each frame is given as its vehicle count, the clock in
 * milliseconds and the key pressed after it.
 */
module Traffic {
  import opened Wrappers

  // ---------------------------------------------------------------------
  // start_processing

  datatype StartOutcome = Started | ShowError(title: string, message: string)

  const InvalidOrderMessage: string := "Ensure: Yellow < Red < Max vehicle limit."
  const InvalidNumbersMessage: string := "Please enter valid numbers for all thresholds."

  /**
   * start_processing. Each threshold is None when reading its entry raises
   * TclError. Processing starts only when all three are read and
   * yellow < red < max.
   */
  function StartProcessing(yellow: Option<int>, red: Option<int>, maxLimit: Option<int>): (r: StartOutcome)
    ensures r.Started? <==> yellow.Some? && red.Some? && maxLimit.Some? && yellow.value < red.value < maxLimit.value
    ensures r == ShowError("Invalid Input", InvalidNumbersMessage) <==> yellow.None? || red.None? || maxLimit.None?
    ensures r == ShowError("Invalid Input", InvalidOrderMessage) <==>
              yellow.Some? && red.Some? && maxLimit.Some? && !(yellow.value < red.value < maxLimit.value)
  {
    match (yellow, red, maxLimit)
    case (Some(y), Some(rd), Some(m)) =>
      if y < rd && rd < m then Started else ShowError("Invalid Input", InvalidOrderMessage)
    case _ => ShowError("Invalid Input", InvalidNumbersMessage)
  }

  // ---------------------------------------------------------------------
  // read_ground_truth and calculate_metrics

  /** One parsed row of ground_truth.csv. */
  datatype Row = Row(frameNumber: int, trueCount: int)

  /** Row i is the last one that mentions its frame. */
  predicate LastForFrame(rows: seq<Row>, i: int)
    requires 0 <= i < |rows|
  {
    forall j :: i < j < |rows| ==> rows[j].frameNumber != rows[i].frameNumber
  }

  /**
   * read_ground_truth: the rows are stored in order into a dictionary, so it
   * holds exactly the frames that appear and, for each, the count of the
   * last row that mentions it.
   */
  method ReadGroundTruth(rows: seq<Row>) returns (groundTruth: map<int, int>)
    ensures forall k :: k in groundTruth <==> exists i :: 0 <= i < |rows| && rows[i].frameNumber == k
    ensures forall i :: 0 <= i < |rows| && LastForFrame(rows, i) ==> groundTruth[rows[i].frameNumber] == rows[i].trueCount
  {
    groundTruth := map[];
    var n := 0;
    while n < |rows|
      invariant 0 <= n <= |rows|
      invariant forall k :: k in groundTruth <==> exists i :: 0 <= i < n && rows[i].frameNumber == k
      invariant forall i :: 0 <= i < n && (forall j :: i < j < n ==> rows[j].frameNumber != rows[i].frameNumber) ==>
                  rows[i].frameNumber in groundTruth && groundTruth[rows[i].frameNumber] == rows[i].trueCount
    {
      var row := rows[n];
      groundTruth := groundTruth[row.frameNumber := row.trueCount];
      n := n + 1;
    }
  }

  /** The value stored for a key, or 0 when the key is absent. */
  function GetOrZero(m: map<int, int>, key: int): int
  {
    if key in m then m[key] else 0
  }

  /** The values stored for keys 1 to n in order, with 0 for each absent key. */
  function Labels(m: map<int, int>, n: nat): (r: seq<int>)
    ensures |r| == n
    ensures forall i :: 0 <= i < n ==> r[i] == GetOrZero(m, i + 1)
  {
    if n == 0 then [] else Labels(m, n - 1) + [GetOrZero(m, n)]
  }

  /** calculate_metrics up to the metric calls: y_true and y_pred, both as long as the predictions. */
  function MetricLists(predictions: map<int, int>, groundTruth: map<int, int>): (r: (seq<int>, seq<int>))
    ensures |r.0| == |predictions| && |r.1| == |predictions|
    ensures forall i :: 0 <= i < |predictions| ==> r.0[i] == GetOrZero(groundTruth, i + 1) && r.1[i] == GetOrZero(predictions, i + 1)
  {
    (Labels(groundTruth, |predictions|), Labels(predictions, |predictions|))
  }

  /** The frame numbers 1 .. n. */
  function FramesUpTo(n: int): (r: set<int>)
    ensures forall k :: k in r <==> 1 <= k <= n
    decreases if n < 0 then 0 else n
  {
    if n <= 0 then {} else FramesUpTo(n - 1) + {n}
  }

  lemma {:induction false} FramesUpToSize(n: nat)
    ensures |FramesUpTo(n)| == n
  {
    if n > 0 {
      FramesUpToSize(n - 1);
      assert n !in FramesUpTo(n - 1);
    }
  }

  /** When the predictions hold exactly frames 1 .. n, y_pred lists them in frame order and never falls back to 0. */
  lemma PredictionsListed(predictions: map<int, int>, groundTruth: map<int, int>, n: nat)
    requires predictions.Keys == FramesUpTo(n)
    ensures |MetricLists(predictions, groundTruth).1| == n
    ensures forall i :: 0 <= i < n ==> MetricLists(predictions, groundTruth).1[i] == predictions[i + 1]
  {
    FramesUpToSize(n);
    assert |predictions| == |predictions.Keys|;
  }

  // ---------------------------------------------------------------------
  // process_video: the per-frame logic

  datatype Thresholds = Thresholds(yellow: int, red: int, maxVehicleLimit: int)

  /** blink_interval, 0.5 s, on a millisecond clock. */
  const BlinkInterval: int := 500
  /** The value the fallback timer starts from and resets to. */
  const DefaultTimer: int := 30

  /**
   * Which light is active for a vehicle count: red from the red threshold up,
   * yellow up to the yellow threshold but never together with red.
   */
  function Activity(count: int, t: Thresholds): (r: (bool, bool))
    ensures r.1 <==> count >= t.red
    ensures r.0 <==> count <= t.yellow && count < t.red
    ensures !(r.0 && r.1)
  {
    var yellowActive := count <= t.yellow;
    var redActive := count >= t.red;
    (if redActive then false else yellowActive, redActive)
  }

  /**
   * The blinking step: each active light toggles when the blink interval has
   * passed since the shared last blink time, which it then resets, so at most
   * one light toggles per frame. Returns the two lights and the new last blink time.
   */
  function BlinkLights(yellowActive: bool, redActive: bool, yellowLight: bool, redLight: bool,
                       lastBlinkTime: int, now: int): (r: (bool, bool, int))
    ensures r.0 != yellowLight <==> yellowActive && now - lastBlinkTime >= BlinkInterval
    ensures r.1 != redLight <==> redActive && r.0 == yellowLight && now - lastBlinkTime >= BlinkInterval
    ensures !(r.0 != yellowLight && r.1 != redLight)
    ensures r.2 == if r.0 != yellowLight || r.1 != redLight then now else lastBlinkTime
  {
    var yellowToggles := yellowActive && now - lastBlinkTime >= BlinkInterval;
    var last := if yellowToggles then now else lastBlinkTime;
    var yellow := if yellowToggles then !yellowLight else yellowLight;
    var redToggles := redActive && now - last >= BlinkInterval;
    (yellow, if redToggles then !redLight else redLight, if redToggles then now else last)
  }

  /** What the frame shows. */
  datatype Light = YellowShown | RedShown | Dark

  /**
   * The display step that runs on every frame, paused or not: a lit active
   * light is drawn; otherwise the fallback timer counts down and, at 0,
   * toggles both lights and starts again from 30. Returns what is shown,
   * the two lights and the timer.
   */
  function Display(yellowActive: bool, redActive: bool, yellowLight: bool, redLight: bool, timer: int)
    : (r: (Light, bool, bool, int))
    ensures 0 <= timer <= DefaultTimer ==> 0 <= r.3 <= DefaultTimer
    ensures r.0 == YellowShown <==> yellowActive && yellowLight
    ensures r.0 == RedShown <==> !(yellowActive && yellowLight) && redActive && redLight
    ensures r.0 != Dark ==> r.1 == yellowLight && r.2 == redLight && r.3 == timer
    ensures r.0 == Dark ==> r.3 == (if timer == 0 then DefaultTimer else timer - 1)
    ensures r.0 == Dark ==> (r.1 != yellowLight <==> timer == 0) && (r.2 != redLight <==> timer == 0)
  {
    if yellowActive && yellowLight then (YellowShown, yellowLight, redLight, timer)
    else if redActive && redLight then (RedShown, yellowLight, redLight, timer)
    else if timer == 0 then (Dark, !yellowLight, !redLight, DefaultTimer)
    else (Dark, yellowLight, redLight, timer - 1)
  }

  /** The key read after a frame. */
  datatype Key = QuitKey | PauseKey | OtherKey

  /** The loop variables of process_video. */
  datatype Signal = Signal(
    paused: bool,
    yellowLight: bool,
    redLight: bool,
    lastBlinkTime: int,
    currentTimer: int,
    frameNumber: int,
    predictions: map<int, int>,
    prevVehicleCount: int,
    yellowActive: bool,   // yellow_light_active of the last processed frame
    redActive: bool)      // red_light_active of the last processed frame

  /** What one frame reports. */
  datatype FrameReport = FrameReport(
    processed: bool,      // the frame was run through the detector (not paused)
    countChanged: bool,   // the count differs from the previous one and is printed
    emergency: bool,      // the emergency popup is shown and logged
    shown: Light,
    stop: bool)           // 'q' ends the loop

  /** The loop variables before the first frame; the blink clock starts at the start time. */
  function InitialSignal(start: int): Signal
  {
    Signal(false, false, false, start, DefaultTimer, 1, map[], 0, false, false)
  }

  /**
   * The invariant of the loop: the timer stays in [0, 30], the predictions
   * hold exactly the frames processed so far, numbered from 1, and the loop
   * is paused only after a frame was processed, so the active flags the
   * display reads are always set.
   */
  ghost predicate Inv(s: Signal)
  {
    && 0 <= s.currentTimer <= DefaultTimer
    && s.frameNumber >= 1
    && s.predictions.Keys == FramesUpTo(s.frameNumber - 1)
    && (s.paused ==> s.frameNumber > 1)
  }

  /**
   * The part of a frame that runs only when not paused: record the count
   * under the current frame number, note a changed count, decide the active
   * lights, blink, check the emergency limit and advance the frame number.
   * Returns the new variables, whether the count changed and whether the
   * emergency popup is shown.
   */
  function ProcessFrame(t: Thresholds, s: Signal, vehicleCount: nat, now: int): (r: (Signal, bool, bool))
    ensures r.0.predictions.Keys == s.predictions.Keys + {s.frameNumber}
    ensures r.0.prevVehicleCount == vehicleCount && (r.1 <==> vehicleCount != s.prevVehicleCount)
    ensures !(r.0.yellowActive && r.0.redActive)
    ensures r.0.paused == s.paused && r.0.currentTimer == s.currentTimer
  {
    var countChanged := vehicleCount != s.prevVehicleCount;
    var active := Activity(vehicleCount, t);
    var lights := BlinkLights(active.0, active.1, s.yellowLight, s.redLight, s.lastBlinkTime, now);
    (s.(predictions := s.predictions[s.frameNumber := vehicleCount],
        prevVehicleCount := vehicleCount,
        yellowActive := active.0, redActive := active.1,
        yellowLight := lights.0, redLight := lights.1, lastBlinkTime := lights.2,
        frameNumber := s.frameNumber + 1),
     countChanged, vehicleCount > t.maxVehicleLimit)
  }

  /** The display step on the variables: what is shown, with the lights and timer it leaves. */
  function ShowFrame(s: Signal): (r: (Signal, Light))
    ensures 0 <= s.currentTimer <= DefaultTimer ==> 0 <= r.0.currentTimer <= DefaultTimer
    ensures r.0.(yellowLight := s.yellowLight, redLight := s.redLight, currentTimer := s.currentTimer) == s
    ensures r.1 != Dark ==> r.0 == s
  {
    var d := Display(s.yellowActive, s.redActive, s.yellowLight, s.redLight, s.currentTimer);
    (s.(yellowLight := d.1, redLight := d.2, currentTimer := d.3), d.0)
  }

  /**
   * One iteration of process_video's loop. A paused frame skips detection,
   * light activity, blinking and the emergency check but still runs the
   * display step; the key then quits or toggles the pause.
   */
  function Tick(t: Thresholds, s: Signal, vehicleCount: nat, now: int, key: Key): (r: (Signal, FrameReport))
    requires s.paused ==> s.frameNumber > 1
    ensures r.1.processed <==> !s.paused
    ensures r.0.predictions.Keys == if s.paused then s.predictions.Keys else s.predictions.Keys + {s.frameNumber}
    ensures r.1.emergency || r.1.countChanged ==> r.1.processed
  {
    var p := if s.paused then (s, false, false) else ProcessFrame(t, s, vehicleCount, now);
    var shown := ShowFrame(p.0);
    (shown.0.(paused := if key == PauseKey then !s.paused else s.paused),
     FrameReport(!s.paused, p.1, p.2, shown.1, key == QuitKey))
  }

  lemma InitialSignalInv(start: int)
    ensures Inv(InitialSignal(start))
  {
    assert FramesUpTo(0) == {};
  }

  /** Every frame keeps the loop invariant. */
  lemma TickInv(t: Thresholds, s: Signal, vehicleCount: nat, now: int, key: Key)
    requires Inv(s)
    ensures Inv(Tick(t, s, vehicleCount, now, key).0)
  {
    if !s.paused {
      assert FramesUpTo(s.frameNumber) == FramesUpTo(s.frameNumber - 1) + {s.frameNumber};
    }
  }

  /** The detection part of a frame keeps the invariant. */
  lemma ProcessFrameInv(t: Thresholds, s: Signal, vehicleCount: nat, now: int)
    requires Inv(s)
    ensures Inv(ProcessFrame(t, s, vehicleCount, now).0)
  {
    assert FramesUpTo(s.frameNumber) == FramesUpTo(s.frameNumber - 1) + {s.frameNumber};
  }

  /** An unpaused frame records its count under the next frame number and advances it by one. */
  lemma ProcessedFrame(t: Thresholds, s: Signal, vehicleCount: nat, now: int, key: Key)
    requires !s.paused
    ensures var (s', r) := Tick(t, s, vehicleCount, now, key);
      && r.processed
      && s'.frameNumber == s.frameNumber + 1
      && s'.predictions == s.predictions[s.frameNumber := vehicleCount]
      && (r.emergency <==> vehicleCount > t.maxVehicleLimit)
      && (s'.redActive <==> vehicleCount >= t.red)
      && (s'.yellowActive <==> vehicleCount <= t.yellow && vehicleCount < t.red)
  {
  }

  /** A paused frame changes neither the frame number, the predictions, the lights' blinking nor the blink clock, and raises no emergency. */
  lemma PausedFrame(t: Thresholds, s: Signal, vehicleCount: nat, now: int, key: Key)
    requires s.paused && s.frameNumber > 1
    ensures var (s', r) := Tick(t, s, vehicleCount, now, key);
      && !r.processed && !r.emergency && !r.countChanged
      && s'.frameNumber == s.frameNumber && s'.predictions == s.predictions
      && s'.lastBlinkTime == s.lastBlinkTime
      && s'.yellowActive == s.yellowActive && s'.redActive == s.redActive
  {
  }

  /** The pause key toggles the pause, the quit key stops, any other key changes neither. */
  lemma KeyRule(t: Thresholds, s: Signal, vehicleCount: nat, now: int, key: Key)
    requires s.paused ==> s.frameNumber > 1
    ensures var (s', r) := Tick(t, s, vehicleCount, now, key);
      && (s'.paused <==> (s.paused != (key == PauseKey)))
      && (r.stop <==> key == QuitKey)
  {
  }

  /** The input of one frame. */
  datatype Input = Input(vehicleCount: nat, now: int, key: Key)

  /** The number of inputs that reach an unpaused frame, starting from the given pause state. */
  function ProcessedCount(paused: bool, inputs: seq<Input>): nat
    decreases |inputs|
  {
    if |inputs| == 0 then 0
    else (if paused then 0 else 1) + ProcessedCount(if inputs[0].key == PauseKey then !paused else paused, inputs[1..])
  }

  /** Running the loop over a sequence of frames (ignoring 'q', which the caller stops on). */
  function RunSignal(t: Thresholds, s: Signal, inputs: seq<Input>): Signal
    requires Inv(s)
    decreases |inputs|
  {
    if |inputs| == 0 then s
    else
      TickInv(t, s, inputs[0].vehicleCount, inputs[0].now, inputs[0].key);
      RunSignal(t, Tick(t, s, inputs[0].vehicleCount, inputs[0].now, inputs[0].key).0, inputs[1..])
  }

  /**
   * Over any run the invariant holds, the frame number has advanced by the
   * number of unpaused frames, and the predictions hold exactly frames
   * 1 .. n for the n frames processed.
   */
  lemma {:induction false} RunSignalFrames(t: Thresholds, s: Signal, inputs: seq<Input>)
    requires Inv(s)
    ensures Inv(RunSignal(t, s, inputs))
    ensures RunSignal(t, s, inputs).frameNumber == s.frameNumber + ProcessedCount(s.paused, inputs)
    ensures |RunSignal(t, s, inputs).predictions| == RunSignal(t, s, inputs).frameNumber - 1
    decreases |inputs|
  {
    if |inputs| == 0 {
      FramesUpToSize(s.frameNumber - 1);
      assert |s.predictions| == |s.predictions.Keys|;
    } else {
      var i := inputs[0];
      TickInv(t, s, i.vehicleCount, i.now, i.key);
      RunSignalFrames(t, Tick(t, s, i.vehicleCount, i.now, i.key).0, inputs[1..]);
    }
  }

  // ---------------------------------------------------------------------
  // The controller object

  /** process_video's loop variables, updated frame by frame. */
  class TrafficController {
    const thresholds: Thresholds
    var paused: bool
    var yellowLight: bool
    var redLight: bool
    var lastBlinkTime: int
    var currentTimer: int
    var frameNumber: int
    var predictions: map<int, int>
    var prevVehicleCount: int
    var yellowActive: bool
    var redActive: bool

    function State(): Signal
      reads this
    {
      Signal(paused, yellowLight, redLight, lastBlinkTime, currentTimer, frameNumber, predictions,
             prevVehicleCount, yellowActive, redActive)
    }

    ghost predicate Valid()
      reads this
    {
      Inv(State())
    }

    constructor (t: Thresholds, start: int)
      ensures Valid() && thresholds == t && State() == InitialSignal(start)
    {
      thresholds := t;
      paused, yellowLight, redLight, lastBlinkTime, currentTimer := false, false, false, start, DefaultTimer;
      frameNumber, predictions, prevVehicleCount, yellowActive, redActive := 1, map[], 0, false, false;
      new;
      InitialSignalInv(start);
    }

    /** The detection part of a frame, run only when not paused; it keeps the invariant. */
    method Process(vehicleCount: nat, now: int) returns (countChanged: bool, emergency: bool)
      requires Valid() && !paused
      modifies this
      ensures Valid()
      ensures (State(), countChanged, emergency) == ProcessFrame(thresholds, old(State()), vehicleCount, now)
    {
      ProcessFrameInv(thresholds, State(), vehicleCount, now);
      predictions := predictions[frameNumber := vehicleCount];
      countChanged := false;
      if vehicleCount != prevVehicleCount {
        countChanged := true;
        prevVehicleCount := vehicleCount;
      }
      yellowActive := vehicleCount <= thresholds.yellow;
      if vehicleCount >= thresholds.red {
        redActive := true;
        yellowActive := false;
      } else {
        redActive := false;
      }
      BlinkActive(now);
      emergency := vehicleCount > thresholds.maxVehicleLimit;
      frameNumber := frameNumber + 1;
    }

    /** Blinks the active lights on the shared clock; nothing else changes. */
    method BlinkActive(now: int)
      modifies this
      ensures (yellowLight, redLight, lastBlinkTime)
           == BlinkLights(yellowActive, redActive, old(yellowLight), old(redLight), old(lastBlinkTime), now)
      ensures paused == old(paused) && currentTimer == old(currentTimer) && frameNumber == old(frameNumber)
      ensures predictions == old(predictions) && prevVehicleCount == old(prevVehicleCount)
      ensures yellowActive == old(yellowActive) && redActive == old(redActive)
    {
      if yellowActive && now - lastBlinkTime >= BlinkInterval {
        lastBlinkTime := now;
        yellowLight := !yellowLight;
      }
      if redActive && now - lastBlinkTime >= BlinkInterval {
        lastBlinkTime := now;
        redLight := !redLight;
      }
    }

    /** The display part of a frame, run on every frame, paused or not; it keeps the invariant. */
    method Show() returns (shown: Light)
      requires Valid()
      modifies this
      ensures Valid()
      ensures (State(), shown) == ShowFrame(old(State()))
    {
      shown := Dark;
      if yellowActive && yellowLight {
        shown := YellowShown;
      } else if redActive && redLight {
        shown := RedShown;
      } else if currentTimer == 0 {
        yellowLight := !yellowLight;
        redLight := !redLight;
        currentTimer := DefaultTimer;
      } else {
        currentTimer := currentTimer - 1;
      }
    }

    /** One iteration of the frame loop. */
    method Frame(vehicleCount: nat, now: int, key: Key) returns (report: FrameReport)
      requires Valid()
      modifies this
      ensures Valid()
      ensures (State(), report) == Tick(thresholds, old(State()), vehicleCount, now, key)
    {
      TickInv(thresholds, State(), vehicleCount, now, key);
      var wasPaused := paused;
      var countChanged, emergency := false, false;
      if !paused {
        countChanged, emergency := Process(vehicleCount, now);
      }
      var shown := Show();
      if key == PauseKey {
        paused := !wasPaused;
      }
      report := FrameReport(!wasPaused, countChanged, emergency, shown, key == QuitKey);
    }
  }
}
