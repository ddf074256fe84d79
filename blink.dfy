/**
 * The per-frame logic of the blink detector (READ_GITHUB/MAIN_CODE.py, the
 * body of its frame loop): resetting on face loss, counting runs of
 * closed-eye frames and completed blinks, the eyes-missing alert with its
 * latch and cooldown repeat, and the logged labels.
 *
 * The detectors are outside the model. Each frame is given as: whether the
 * face cascade found a face, whether the eye cascade found eyes in any face,
 * one flag per landmark face telling whether its eye aspect ratio is below
 * 0.2, and the clock in whole seconds.
 */
module Blink {

  /** The two durations the user enters before detection starts (seconds). */
  datatype Config = Config(alertDuration: int, cooldownDuration: int)

  /** The module-level counters the loop updates. */
  datatype TrackerState = TrackerState(
    count: nat,                // current run of closed-eye faces
    total: nat,                // completed blinks
    audioPlayed: bool,         // the alert latch
    lastAlertTime: int,
    lastEyeDetectionTime: int,
    frameNumber: nat)

  /** One row of the results file: frame number, detected label, reference label. */
  datatype LogRow = LogRow(frameNumber: nat, detected: string, reference: string)

  /** What one frame reports to the display, the speech engine and the log. */
  datatype FrameOutcome = FrameOutcome(
    detectedBlink: bool,  // some face had its eyes below the threshold
    firstAlert: bool,     // the alert was spoken by the first-alert branch
    repeatAlert: bool,    // the alert was spoken by the cooldown branch
    row: LogRow)

  /** The counters when detection starts; the eye timer starts at the start time. */
  function Initial(start: int): TrackerState
  {
    TrackerState(0, 0, false, 0, start, 0)
  }

  /** The text logged for a frame. */
  function BlinkLabel(detectedBlink: bool): string
  {
    if detectedBlink then "True Blink" else "No Blink"
  }

  /** The run counters after one landmark face. */
  datatype EarState = EarState(count: nat, total: nat, detectedBlink: bool)

  /** One pass of the landmark loop: a closed face extends the run, an open one closes it. */
  function EarStep(e: EarState, below: bool): (r: EarState)
    ensures r.detectedBlink <==> e.detectedBlink || below
    ensures below <==> r.count >= 1
    ensures r.total == e.total + 1 <==> !below && e.count >= 1
    ensures e.total <= r.total <= e.total + 1
  {
    if below then EarState(e.count + 1, e.total, true)
    else EarState(0, if e.count >= 1 then e.total + 1 else e.total, e.detectedBlink)
  }

  /** The landmark loop over the faces of one frame, in order. */
  function EarFold(e: EarState, flags: seq<bool>): (r: EarState)
    ensures e.total <= r.total <= e.total + |flags|
    ensures e.detectedBlink ==> r.detectedBlink
  {
    if |flags| == 0 then e else EarStep(EarFold(e, flags[..|flags| - 1]), flags[|flags| - 1])
  }

  /** Number of trailing closed faces. */
  function TrailingClosed(flags: seq<bool>): nat
  {
    if |flags| == 0 || !flags[|flags| - 1] then 0 else TrailingClosed(flags[..|flags| - 1]) + 1
  }

  /** Whether no face is open. */
  predicate AllClosed(flags: seq<bool>)
  {
    forall i :: 0 <= i < |flags| ==> flags[i]
  }

  /** Number of open faces that close a run (the run may come from the previous frame when count starts above 0). */
  function Completions(count: nat, flags: seq<bool>): nat
  {
    if |flags| == 0 then 0
    else
      var k := |flags| - 1;
      var closes := !flags[k] && (if k == 0 then count >= 1 else flags[k - 1]);
      Completions(count, flags[..k]) + (if closes then 1 else 0)
  }

  /**
   * The landmark loop, characterised independently of its step: the run
   * length is the number of trailing closed faces (plus the carried run when
   * every face is closed), every closed-to-open transition adds one blink,
   * and a blink is detected iff some face is closed.
   */
  lemma {:induction false} EarFoldMeaning(e: EarState, flags: seq<bool>)
    ensures EarFold(e, flags).count == if AllClosed(flags) then e.count + |flags| else TrailingClosed(flags)
    ensures EarFold(e, flags).total == e.total + Completions(e.count, flags)
    ensures EarFold(e, flags).detectedBlink <==> e.detectedBlink || exists i :: 0 <= i < |flags| && flags[i]
  {
    if |flags| > 0 {
      var k := |flags| - 1;
      var init := flags[..k];
      EarFoldMeaning(e, init);
      assert forall i :: 0 <= i < k ==> init[i] == flags[i];
      if AllClosed(flags) {
        assert AllClosed(init);
      }
      if k > 0 && !AllClosed(init) && flags[k] {
        assert !AllClosed(flags);
      }
      if k > 0 {
        if AllClosed(init) {
          assert init[k - 1];
          assert EarFold(e, init).count >= 1;
        } else if !flags[k - 1] {
          assert TrailingClosed(init) == 0;
        } else {
          assert TrailingClosed(init) >= 1;
        }
      }
      if EarFold(e, flags).detectedBlink && !e.detectedBlink && !flags[k] {
        var i :| 0 <= i < k && init[i];
        assert flags[i];
      }
    }
  }

  /** Completed blinks are bounded by the open faces of the frame. */
  lemma {:induction false} CompletionsBound(count: nat, flags: seq<bool>)
    ensures Completions(count, flags) <= |flags|
  {
    if |flags| > 0 {
      CompletionsBound(count, flags[..|flags| - 1]);
    }
  }

  /**
   * One frame of the loop, as a function of the counters before it. Returns
   * the counters after the frame and what the frame reports.
   */
  function Observe(cfg: Config, s: TrackerState, faceFound: bool, eyesFound: bool,
                   earBelowThreshold: seq<bool>, now: int): (r: (TrackerState, FrameOutcome))
    ensures r.0.frameNumber == s.frameNumber + 1 && r.1.row.frameNumber == r.0.frameNumber
    ensures r.0.lastEyeDetectionTime == if faceFound && eyesFound then now else s.lastEyeDetectionTime
    ensures r.1.firstAlert || r.1.repeatAlert ==> faceFound && !eyesFound && r.0.audioPlayed && r.0.lastAlertTime == now
  {
    var frameNumber := s.frameNumber + 1;
    if !faceFound then
      // Face loss resets everything but the eye timer; no blink, no alert.
      (TrackerState(0, 0, false, 0, s.lastEyeDetectionTime, frameNumber),
       FrameOutcome(false, false, false, LogRow(frameNumber, BlinkLabel(false), BlinkLabel(false))))
    else
      var lastEye := if eyesFound then now else s.lastEyeDetectionTime;
      var e := EarFold(EarState(s.count, s.total, false), earBelowThreshold);
      // First alert: eyes missing for at least alertDuration and not yet spoken.
      var first := !eyesFound && now - lastEye >= cfg.alertDuration && !s.audioPlayed;
      var audio := if eyesFound then false else s.audioPlayed || first;
      var count := if eyesFound then 0 else e.count;
      var alertTime := if first then now else s.lastAlertTime;
      // Repeat alert: latched and the cooldown has passed since the last one.
      var repeat := audio && now - alertTime >= cfg.cooldownDuration;
      var alertTime' := if repeat then now else alertTime;
      (TrackerState(count, e.total, audio, alertTime', lastEye, frameNumber),
       FrameOutcome(e.detectedBlink, first, repeat,
                    LogRow(frameNumber, BlinkLabel(e.detectedBlink), BlinkLabel(e.detectedBlink))))
  }

  /** A frame without a face resets the counters and the latch, keeps the eye timer, and reports nothing. */
  lemma FaceLossResets(cfg: Config, s: TrackerState, eyesFound: bool, flags: seq<bool>, now: int)
    ensures var (s', o) := Observe(cfg, s, false, eyesFound, flags, now);
      && s'.count == 0 && s'.total == 0 && !s'.audioPlayed && s'.lastAlertTime == 0
      && s'.lastEyeDetectionTime == s.lastEyeDetectionTime
      && !o.detectedBlink && !o.firstAlert && !o.repeatAlert
  {
  }

  /** The counters after a frame with a face, stated through the landmark-loop characterisation. */
  lemma FrameWithFace(cfg: Config, s: TrackerState, eyesFound: bool, flags: seq<bool>, now: int)
    ensures var (s', o) := Observe(cfg, s, true, eyesFound, flags, now);
      && s'.total == s.total + Completions(s.count, flags)
      && (o.detectedBlink <==> exists i :: 0 <= i < |flags| && flags[i])
      && s'.count == (if eyesFound then 0 else if AllClosed(flags) then s.count + |flags| else TrailingClosed(flags))
  {
    EarFoldMeaning(EarState(s.count, s.total, false), flags);
  }

  /** With a face in view the blink total never decreases and grows by at most one per landmark face. */
  lemma TotalMonotone(cfg: Config, s: TrackerState, eyesFound: bool, flags: seq<bool>, now: int)
    ensures var s' := Observe(cfg, s, true, eyesFound, flags, now).0;
      s.total <= s'.total <= s.total + |flags|
  {
    FrameWithFace(cfg, s, eyesFound, flags, now);
    CompletionsBound(s.count, flags);
  }

  /** After a frame in which the eye cascade found eyes, the run is cleared and the latch released. */
  lemma EyesFoundClears(cfg: Config, s: TrackerState, flags: seq<bool>, now: int)
    ensures var (s', o) := Observe(cfg, s, true, true, flags, now);
      s'.count == 0 && !s'.audioPlayed && s'.lastEyeDetectionTime == now && !o.firstAlert && !o.repeatAlert
  {
  }

  /** When the first alert fires, and what it sets. */
  lemma FirstAlertRule(cfg: Config, s: TrackerState, faceFound: bool, eyesFound: bool, flags: seq<bool>, now: int)
    ensures var (s', o) := Observe(cfg, s, faceFound, eyesFound, flags, now);
      && (o.firstAlert <==> faceFound && !eyesFound && now - s.lastEyeDetectionTime >= cfg.alertDuration && !s.audioPlayed)
      && (o.firstAlert ==> s'.audioPlayed && (s'.lastAlertTime == now))
  {
  }

  /** When the repeat alert fires: only while latched, with a face and no eyes, once the cooldown has passed. */
  lemma RepeatAlertRule(cfg: Config, s: TrackerState, faceFound: bool, eyesFound: bool, flags: seq<bool>, now: int)
    ensures var (s', o) := Observe(cfg, s, faceFound, eyesFound, flags, now);
      && (o.repeatAlert <==>
            faceFound && !eyesFound && s'.audioPlayed &&
            now - (if o.firstAlert then now else s.lastAlertTime) >= cfg.cooldownDuration)
      && (o.repeatAlert ==> s'.lastAlertTime == now)
      && (!o.firstAlert && !o.repeatAlert ==> s'.lastAlertTime == (if faceFound then s.lastAlertTime else 0))
  {
  }

  /**
   * The alert latch after a frame: set exactly when a face is in view, the
   * eyes are missing, and the latch was already set or the first alert fired.
   * A latched alert therefore stays latched until the eyes or the face return.
   */
  lemma LatchRule(cfg: Config, s: TrackerState, faceFound: bool, eyesFound: bool, flags: seq<bool>, now: int)
    ensures var (s', o) := Observe(cfg, s, faceFound, eyesFound, flags, now);
      s'.audioPlayed == (faceFound && !eyesFound && (s.audioPlayed || o.firstAlert))
  {
  }

  /** With a positive cooldown the two alerts never fire in the same frame. */
  lemma OneAlertPerFrame(cfg: Config, s: TrackerState, faceFound: bool, eyesFound: bool, flags: seq<bool>, now: int)
    requires cfg.cooldownDuration > 0
    ensures var o := Observe(cfg, s, faceFound, eyesFound, flags, now).1;
      !(o.firstAlert && o.repeatAlert)
  {
  }

  /** With a cooldown of 0 or less the alert is spoken a second time in every frame where it first fires. */
  lemma ZeroCooldownDoubleAlert(cfg: Config, s: TrackerState, faceFound: bool, eyesFound: bool, flags: seq<bool>, now: int)
    requires cfg.cooldownDuration <= 0
    ensures var o := Observe(cfg, s, faceFound, eyesFound, flags, now).1;
      o.firstAlert ==> o.repeatAlert
  {
  }

  /** Both logged columns are the same label, and it is "True Blink" iff a blink was detected. */
  lemma LoggedLabels(cfg: Config, s: TrackerState, faceFound: bool, eyesFound: bool, flags: seq<bool>, now: int)
    ensures var o := Observe(cfg, s, faceFound, eyesFound, flags, now).1;
      && o.row.detected == o.row.reference
      && (o.row.detected == "True Blink" <==> o.detectedBlink)
      && o.row.frameNumber == s.frameNumber + 1
  {
  }

  /** The input of one frame. */
  datatype Frame = Frame(faceFound: bool, eyesFound: bool, earBelowThreshold: seq<bool>, now: int)

  /** Running the loop over a sequence of frames: the final counters and each frame's outcome. */
  function Run(cfg: Config, s: TrackerState, frames: seq<Frame>): (TrackerState, seq<FrameOutcome>)
    decreases |frames|
  {
    if |frames| == 0 then (s, [])
    else
      var f := frames[0];
      var (next, o) := Observe(cfg, s, f.faceFound, f.eyesFound, f.earBelowThreshold, f.now);
      var (last, outs) := Run(cfg, next, frames[1..]);
      (last, [o] + outs)
  }

  /** Running a first frame and then the rest. */
  lemma RunCons(cfg: Config, s: TrackerState, f: Frame, rest: seq<Frame>)
    ensures var (next, o) := Observe(cfg, s, f.faceFound, f.eyesFound, f.earBelowThreshold, f.now);
      Run(cfg, s, [f] + rest) == (Run(cfg, next, rest).0, [o] + Run(cfg, next, rest).1)
  {
    assert ([f] + rest)[1..] == rest;
  }

  /** While a face stays in view, the blink total never decreases over any number of frames. */
  lemma {:induction false} RunTotalMonotone(cfg: Config, s: TrackerState, frames: seq<Frame>)
    requires forall i :: 0 <= i < |frames| ==> frames[i].faceFound
    ensures Run(cfg, s, frames).0.total >= s.total
    ensures |Run(cfg, s, frames).1| == |frames|
    decreases |frames|
  {
    if |frames| > 0 {
      var f := frames[0];
      var next := Observe(cfg, s, f.faceFound, f.eyesFound, f.earBelowThreshold, f.now).0;
      TotalMonotone(cfg, s, f.eyesFound, f.earBelowThreshold, f.now);
      RunTotalMonotone(cfg, next, frames[1..]);
    }
  }

  /**
   * Once the alert is latched, it is never spoken again by the first-alert
   * branch while a face stays in view with the eyes missing: only the
   * cooldown repeat can speak it, and the latch stays set throughout.
   */
  lemma {:induction false} LatchedNoFirstAlert(cfg: Config, s: TrackerState, frames: seq<Frame>)
    requires s.audioPlayed
    requires forall i :: 0 <= i < |frames| ==> frames[i].faceFound && !frames[i].eyesFound
    ensures |Run(cfg, s, frames).1| == |frames|
    ensures forall i :: 0 <= i < |frames| ==> !Run(cfg, s, frames).1[i].firstAlert
    ensures Run(cfg, s, frames).0.audioPlayed
    decreases |frames|
  {
    if |frames| > 0 {
      var f := frames[0];
      var (next, o) := Observe(cfg, s, f.faceFound, f.eyesFound, f.earBelowThreshold, f.now);
      FirstAlertRule(cfg, s, f.faceFound, f.eyesFound, f.earBelowThreshold, f.now);
      LatchRule(cfg, s, f.faceFound, f.eyesFound, f.earBelowThreshold, f.now);
      LatchedNoFirstAlert(cfg, next, frames[1..]);
      var rest := Run(cfg, next, frames[1..]);
      assert Run(cfg, s, frames) == (rest.0, [o] + rest.1);
      forall i | 0 <= i < |frames|
        ensures !Run(cfg, s, frames).1[i].firstAlert
      {
        if i > 0 {
          assert Run(cfg, s, frames).1[i] == rest.1[i - 1];
        }
      }
    }
  }

  /** A frame with a face and no eyes at time t. */
  function EyesMissing(t: int): Frame
  {
    Frame(true, false, [], t)
  }

  /** Whether a frame spoke the alert. */
  function Alerted(o: FrameOutcome): bool
  {
    o.firstAlert || o.repeatAlert
  }

  /** Running two stretches of frames one after the other is running them together. */
  lemma {:induction false} RunAppend(cfg: Config, s: TrackerState, a: seq<Frame>, b: seq<Frame>)
    ensures var (mid, outsA) := Run(cfg, s, a);
      Run(cfg, s, a + b) == (Run(cfg, mid, b).0, outsA + Run(cfg, mid, b).1)
    decreases |a|
  {
    if |a| == 0 {
      assert a + b == b;
      assert Run(cfg, s, a) == (s, []);
      assert [] + Run(cfg, s, b).1 == Run(cfg, s, b).1;
    } else {
      var f := a[0];
      var (next, o) := Observe(cfg, s, f.faceFound, f.eyesFound, f.earBelowThreshold, f.now);
      assert (a + b)[0] == f && (a + b)[1..] == a[1..] + b;
      RunAppend(cfg, next, a[1..], b);
      var (mid, outsRest) := Run(cfg, next, a[1..]);
      var (last, outsB) := Run(cfg, mid, b);
      assert Run(cfg, s, a) == (mid, [o] + outsRest);
      assert Run(cfg, s, a + b) == (last, [o] + (outsRest + outsB));
      assert [o] + (outsRest + outsB) == [o] + outsRest + outsB;
    }
  }

  /** The eyes-missing frames at t = 0..4: no alert yet, and the latch still off. */
  lemma AlertScenarioWaiting()
    ensures var (last, outs) := Run(Config(5, 3), Initial(0),
                                    [EyesMissing(0), EyesMissing(1), EyesMissing(2), EyesMissing(3), EyesMissing(4)]);
      && last == TrackerState(0, 0, false, 0, 0, 5)
      && |outs| == 5 && (forall t :: 0 <= t < 5 ==> !Alerted(outs[t]))
  {
    var cfg := Config(5, 3);
    var s0 := Initial(0);
    var (s1, o0) := Observe(cfg, s0, true, false, [], 0);
    var (s2, o1) := Observe(cfg, s1, true, false, [], 1);
    var (s3, o2) := Observe(cfg, s2, true, false, [], 2);
    var (s4, o3) := Observe(cfg, s3, true, false, [], 3);
    var (s5, o4) := Observe(cfg, s4, true, false, [], 4);
    RunCons(cfg, s4, EyesMissing(4), []);
    RunCons(cfg, s3, EyesMissing(3), [EyesMissing(4)]);
    RunCons(cfg, s2, EyesMissing(2), [EyesMissing(3), EyesMissing(4)]);
    RunCons(cfg, s1, EyesMissing(1), [EyesMissing(2), EyesMissing(3), EyesMissing(4)]);
    RunCons(cfg, s0, EyesMissing(0), [EyesMissing(1), EyesMissing(2), EyesMissing(3), EyesMissing(4)]);
    assert Run(cfg, s5, []) == (s5, []);
    assert Run(cfg, s0, [EyesMissing(0), EyesMissing(1), EyesMissing(2), EyesMissing(3), EyesMissing(4)]).0 == s5;
    assert Run(cfg, s0, [EyesMissing(0), EyesMissing(1), EyesMissing(2), EyesMissing(3), EyesMissing(4)]).1
        == [o0, o1, o2, o3, o4];
  }

  /** The eyes-missing frames at t = 5..8: the first alert at 5 and its repeat at 8. */
  lemma AlertScenarioAlerting()
    ensures var outs := Run(Config(5, 3), TrackerState(0, 0, false, 0, 0, 5),
                            [EyesMissing(5), EyesMissing(6), EyesMissing(7), EyesMissing(8)]).1;
      |outs| == 4 && (forall t :: 0 <= t < 4 ==> (Alerted(outs[t]) <==> t == 0 || t == 3))
  {
    var cfg := Config(5, 3);
    var s5 := TrackerState(0, 0, false, 0, 0, 5);
    var (s6, o5) := Observe(cfg, s5, true, false, [], 5);
    var (s7, o6) := Observe(cfg, s6, true, false, [], 6);
    var (s8, o7) := Observe(cfg, s7, true, false, [], 7);
    var (s9, o8) := Observe(cfg, s8, true, false, [], 8);
    RunCons(cfg, s8, EyesMissing(8), []);
    RunCons(cfg, s7, EyesMissing(7), [EyesMissing(8)]);
    RunCons(cfg, s6, EyesMissing(6), [EyesMissing(7), EyesMissing(8)]);
    RunCons(cfg, s5, EyesMissing(5), [EyesMissing(6), EyesMissing(7), EyesMissing(8)]);
    assert Run(cfg, s5, [EyesMissing(5), EyesMissing(6), EyesMissing(7), EyesMissing(8)]).1 == [o5, o6, o7, o8];
  }

  /** Five-second alert, three-second cooldown, eyes missing from t = 0: alerts at t = 5 and t = 8 only. */
  lemma AlertScenario()
    ensures var outs := Run(Config(5, 3), Initial(0),
                            [EyesMissing(0), EyesMissing(1), EyesMissing(2), EyesMissing(3), EyesMissing(4),
                             EyesMissing(5), EyesMissing(6), EyesMissing(7), EyesMissing(8)]).1;
      |outs| == 9 && (forall t :: 0 <= t < 9 ==> (Alerted(outs[t]) <==> t == 5 || t == 8))
  {
    var waiting := [EyesMissing(0), EyesMissing(1), EyesMissing(2), EyesMissing(3), EyesMissing(4)];
    var alerting := [EyesMissing(5), EyesMissing(6), EyesMissing(7), EyesMissing(8)];
    AlertScenarioWaiting();
    AlertScenarioAlerting();
    RunAppend(Config(5, 3), Initial(0), waiting, alerting);
    assert waiting + alerting == [EyesMissing(0), EyesMissing(1), EyesMissing(2), EyesMissing(3), EyesMissing(4),
                                  EyesMissing(5), EyesMissing(6), EyesMissing(7), EyesMissing(8)];
  }

  /**
   * A closed-eye run carries across frames only while the eye cascade misses
   * the eyes: open, closed, closed, open counts one blink when the two closed
   * frames have no eyes, and none when the eyes were found in every frame.
   */
  lemma CarriedRunScenario()
    ensures Run(Config(5, 3), Initial(0), [Frame(true, true, [false], 0), Frame(true, false, [true], 0),
                                           Frame(true, false, [true], 0), Frame(true, true, [false], 0)]).0.total == 1
    ensures Run(Config(5, 3), Initial(0), [Frame(true, true, [false], 0), Frame(true, true, [true], 0),
                                           Frame(true, true, [true], 0), Frame(true, true, [false], 0)]).0.total == 0
  {
    var cfg := Config(5, 3);
    var s0 := Initial(0);
    var openEyes, closedMissed, closedSeen := Frame(true, true, [false], 0), Frame(true, false, [true], 0), Frame(true, true, [true], 0);
    var a1 := Observe(cfg, s0, true, true, [false], 0).0;
    var a2 := Observe(cfg, a1, true, false, [true], 0).0;
    var a3 := Observe(cfg, a2, true, false, [true], 0).0;
    assert a3.count == 2;
    RunCons(cfg, a3, openEyes, []);
    RunCons(cfg, a2, closedMissed, [openEyes]);
    RunCons(cfg, a1, closedMissed, [closedMissed, openEyes]);
    RunCons(cfg, s0, openEyes, [closedMissed, closedMissed, openEyes]);
    var b2 := Observe(cfg, a1, true, true, [true], 0).0;
    var b3 := Observe(cfg, b2, true, true, [true], 0).0;
    assert b3.count == 0;
    RunCons(cfg, b3, openEyes, []);
    RunCons(cfg, b2, openEyes, [closedSeen]);
    RunCons(cfg, b2, closedSeen, [openEyes]);
    RunCons(cfg, a1, closedSeen, [closedSeen, openEyes]);
    RunCons(cfg, s0, openEyes, [closedSeen, closedSeen, openEyes]);
  }

  /**
   * The frame loop's state as an object: the module-level counters become
   * fields, the durations are fixed for the session.
   */
  class BlinkTracker {
    var count: nat
    var total: nat
    var audioPlayed: bool
    var lastAlertTime: int
    var lastEyeDetectionTime: int
    var frameNumber: nat
    const config: Config

    function State(): TrackerState
      reads this
    {
      TrackerState(count, total, audioPlayed, lastAlertTime, lastEyeDetectionTime, frameNumber)
    }

    /** Detection starts with zeroed counters and the eye timer at the start time. */
    constructor (alertDuration: int, cooldownDuration: int, start: int)
      ensures config == Config(alertDuration, cooldownDuration)
      ensures State() == Initial(start)
    {
      config := Config(alertDuration, cooldownDuration);
      count, total, audioPlayed, lastAlertTime, lastEyeDetectionTime, frameNumber := 0, 0, false, 0, start, 0;
    }

    /** One iteration of the frame loop. */
    method Step(faceFound: bool, eyesFound: bool, earBelowThreshold: seq<bool>, now: int) returns (o: FrameOutcome)
      modifies this
      ensures (State(), o) == Observe(config, old(State()), faceFound, eyesFound, earBelowThreshold, now)
    {
      frameNumber := frameNumber + 1;
      if !faceFound {
        count, total, audioPlayed, lastAlertTime := 0, 0, false, 0;
      }
      var detectedBlink, firstAlert, repeatAlert := false, false, false;
      if faceFound {
        if eyesFound {
          lastEyeDetectionTime := now;
        }
        ghost var e0 := EarState(count, total, false);
        var i := 0;
        while i < |earBelowThreshold|
          invariant 0 <= i <= |earBelowThreshold|
          invariant EarState(count, total, detectedBlink) == EarFold(e0, earBelowThreshold[..i])
          invariant lastEyeDetectionTime == (if eyesFound then now else old(lastEyeDetectionTime))
          invariant frameNumber == old(frameNumber) + 1
          invariant audioPlayed == old(audioPlayed) && lastAlertTime == old(lastAlertTime)
        {
          assert earBelowThreshold[..i + 1][..i] == earBelowThreshold[..i];
          if earBelowThreshold[i] {
            count := count + 1;
            detectedBlink := true;
          } else {
            if count >= 1 {
              total := total + 1;
            }
            count := 0;
          }
          i := i + 1;
        }
        assert earBelowThreshold[..i] == earBelowThreshold;
        if !eyesFound {
          var elapsedTime := now - lastEyeDetectionTime;
          if elapsedTime >= config.alertDuration && !audioPlayed {
            firstAlert := true;
            audioPlayed := true;
            lastAlertTime := now;
          }
        } else {
          audioPlayed := false;
          count := 0;
        }
        if audioPlayed && now - lastAlertTime >= config.cooldownDuration {
          repeatAlert := true;
          lastAlertTime := now;
        }
      }
      var shownLabel := BlinkLabel(detectedBlink);
      o := FrameOutcome(detectedBlink, firstAlert, repeatAlert, LogRow(frameNumber, shownLabel, shownLabel));
    }
  }
}
