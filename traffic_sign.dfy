/**
 * The deterministic parts of the traffic-sign detector (traffic_sign/main.py):
 * the table from class index to sign name with its 'Unknown' default, the
 * image-extension filter of the folder scan, and the strict probability
 * threshold that decides whether a prediction is labelled. The classifier,
 * image loading and drawing are outside the model; the predicted class
 * index and its probability are parameters.
 */
module TrafficSign {
  import opened Wrappers
  import opened Strings

  /** The probability a prediction must exceed to be labelled. */
  const Threshold: real := 0.5

  const Unknown: string := "Unknown"

  /**
   * getClassName: the entry of its 43-class dictionary (indices 0 to 42), or
   * 'Unknown' for any other index.
   */
  function ClassName(classNo: int): (r: string)
    ensures r != Unknown <==> 0 <= classNo <= 42
  {
    match classNo
    case 0 => "Speed Limit 20 km/h"
    case 1 => "Speed Limit 30 km/h"
    case 2 => "Speed Limit 50 km/h"
    case 3 => "Speed Limit 60 km/h"
    case 4 => "Speed Limit 70 km/h"
    case 5 => "Speed Limit 80 km/h"
    case 6 => "End of Speed Limit 80 km/h"
    case 7 => "Speed Limit 100 km/h"
    case 8 => "Speed Limit 120 km/h"
    case 9 => "No passing"
    case 10 => "No passing for vehicles over 3.5 metric tons"
    case 11 => "Right-of-way at the next intersection"
    case 12 => "Priority road"
    case 13 => "Yield"
    case 14 => "Stop"
    case 15 => "No vehicles"
    case 16 => "Vehicles over 3.5 metric tons prohibited"
    case 17 => "No entry"
    case 18 => "General caution"
    case 19 => "Dangerous curve to the left"
    case 20 => "Dangerous curve to the right"
    case 21 => "Double curve"
    case 22 => "Bumpy road"
    case 23 => "Slippery road"
    case 24 => "Road narrows on the right"
    case 25 => "Road work"
    case 26 => "Traffic signals"
    case 27 => "Pedestrians"
    case 28 => "Children crossing"
    case 29 => "Bicycles crossing"
    case 30 => "Beware of ice/snow"
    case 31 => "Wild animals crossing"
    case 32 => "End of all speed and passing limits"
    case 33 => "Turn right ahead"
    case 34 => "Turn left ahead"
    case 35 => "Ahead only"
    case 36 => "Go straight or right"
    case 37 => "Go straight or left"
    case 38 => "Keep right"
    case 39 => "Keep left"
    case 40 => "Roundabout mandatory"
    case 41 => "End of no passing"
    case 42 => "End of no passing by vehicles over 3.5 metric tons"
    case _ => Unknown
  }

  /**
   * The sign name back to its class index; None for a text that names no
   * class. Names are first told apart by their length, then by their text.
   */
  function ClassIndex(name: string): Option<int>
  {
    match |name|
    case 4 => if name == "Stop" then Some(14) else None
    case 5 => if name == "Yield" then Some(13) else None
    case 8 => if name == "No entry" then Some(17) else None
    case 9 => if name == "Road work" then Some(25) else if name == "Keep left" then Some(39) else None
    case 10 => if name == "No passing" then Some(9) else if name == "Bumpy road" then Some(22) else if name == "Ahead only" then Some(35) else if name == "Keep right" then Some(38) else None
    case 11 => if name == "No vehicles" then Some(15) else if name == "Pedestrians" then Some(27) else None
    case 12 => if name == "Double curve" then Some(21) else None
    case 13 => if name == "Priority road" then Some(12) else if name == "Slippery road" then Some(23) else None
    case 15 => if name == "General caution" then Some(18) else if name == "Traffic signals" then Some(26) else if name == "Turn left ahead" then Some(34) else None
    case 16 => if name == "Turn right ahead" then Some(33) else None
    case 17 => if name == "Children crossing" then Some(28) else if name == "Bicycles crossing" then Some(29) else if name == "End of no passing" then Some(41) else None
    case 18 => if name == "Beware of ice/snow" then Some(30) else None
    case 19 => if name == "Speed Limit 20 km/h" then Some(0) else if name == "Speed Limit 30 km/h" then Some(1) else if name == "Speed Limit 50 km/h" then Some(2) else if name == "Speed Limit 60 km/h" then Some(3) else if name == "Speed Limit 70 km/h" then Some(4) else if name == "Speed Limit 80 km/h" then Some(5) else if name == "Go straight or left" then Some(37) else None
    case 20 => if name == "Speed Limit 100 km/h" then Some(7) else if name == "Speed Limit 120 km/h" then Some(8) else if name == "Go straight or right" then Some(36) else if name == "Roundabout mandatory" then Some(40) else None
    case 21 => if name == "Wild animals crossing" then Some(31) else None
    case 25 => if name == "Road narrows on the right" then Some(24) else None
    case 26 => if name == "End of Speed Limit 80 km/h" then Some(6) else None
    case 27 => if name == "Dangerous curve to the left" then Some(19) else None
    case 28 => if name == "Dangerous curve to the right" then Some(20) else None
    case 35 => if name == "End of all speed and passing limits" then Some(32) else None
    case 37 => if name == "Right-of-way at the next intersection" then Some(11) else None
    case 40 => if name == "Vehicles over 3.5 metric tons prohibited" then Some(16) else None
    case 44 => if name == "No passing for vehicles over 3.5 metric tons" then Some(10) else None
    case 50 => if name == "End of no passing by vehicles over 3.5 metric tons" then Some(42) else None
    case _ => None
  }

  /** Every class name leads back to its own index. */
  lemma ClassIndexOfName(classNo: int)
    requires 0 <= classNo <= 42
    ensures ClassIndex(ClassName(classNo)) == Some(classNo)
  {
    if classNo <= 10 { ClassIndexOfNameIn0To10(classNo); }
    else if classNo <= 21 { ClassIndexOfNameIn11To21(classNo); }
    else if classNo <= 32 { ClassIndexOfNameIn22To32(classNo); }
    else { ClassIndexOfNameIn33To42(classNo); }
  }

  lemma ClassIndexOfNameIn0To10(classNo: int)
    requires 0 <= classNo <= 10
    ensures ClassIndex(ClassName(classNo)) == Some(classNo)
  {
    match classNo
    case 0 =>
    case 1 =>
    case 2 =>
    case 3 =>
    case 4 =>
    case 5 =>
    case 6 =>
    case 7 =>
    case 8 =>
    case 9 =>
    case 10 =>
  }

  lemma ClassIndexOfNameIn11To21(classNo: int)
    requires 11 <= classNo <= 21
    ensures ClassIndex(ClassName(classNo)) == Some(classNo)
  {
    match classNo
    case 11 =>
    case 12 =>
    case 13 =>
    case 14 =>
    case 15 =>
    case 16 =>
    case 17 =>
    case 18 =>
    case 19 =>
    case 20 =>
    case 21 =>
  }

  lemma ClassIndexOfNameIn22To32(classNo: int)
    requires 22 <= classNo <= 32
    ensures ClassIndex(ClassName(classNo)) == Some(classNo)
  {
    match classNo
    case 22 =>
    case 23 =>
    case 24 =>
    case 25 =>
    case 26 =>
    case 27 =>
    case 28 =>
    case 29 =>
    case 30 =>
    case 31 =>
    case 32 =>
  }

  lemma ClassIndexOfNameIn33To42(classNo: int)
    requires 33 <= classNo <= 42
    ensures ClassIndex(ClassName(classNo)) == Some(classNo)
  {
    match classNo
    case 33 =>
    case 34 =>
    case 35 =>
    case 36 =>
    case 37 =>
    case 38 =>
    case 39 =>
    case 40 =>
    case 41 =>
    case 42 =>
  }

  /** Distinct classes have distinct names. */
  lemma ClassNameInjective(a: int, b: int)
    requires 0 <= a <= 42 && 0 <= b <= 42 && ClassName(a) == ClassName(b)
    ensures a == b
  {
    ClassIndexOfName(a);
    ClassIndexOfName(b);
  }

  lemma ClassNameEntries()
    ensures ClassName(13) == "Yield" && ClassName(14) == "Stop" && ClassName(17) == "No entry"
    ensures ClassName(-1) == Unknown && ClassName(43) == Unknown
  {
  }

  /** Whether a file name ends with one of the five image extensions, compared case-sensitively. */
  predicate IsImageFile(filename: string)
    ensures IsImageFile(filename) ==> |filename| >= 4 && filename[|filename| - 4..] in {".jpg", "jpeg", ".png", ".bmp", ".gif"}
  {
    assert EndsWith(filename, ".jpeg") ==> filename[|filename| - 4..] == filename[|filename| - 5..][1..];
    EndsWith(filename, ".jpg") || EndsWith(filename, ".jpeg") || EndsWith(filename, ".png")
    || EndsWith(filename, ".bmp") || EndsWith(filename, ".gif")
  }

  lemma IsImageFileMeaning(filename: string)
    ensures IsImageFile(filename) <==>
      exists e :: e in [".jpg", ".jpeg", ".png", ".bmp", ".gif"] && |e| <= |filename| && filename[|filename| - |e|..] == e
  {
    var exts := [".jpg", ".jpeg", ".png", ".bmp", ".gif"];
    if IsImageFile(filename) {
      if EndsWith(filename, ".jpg") { assert exts[0] in exts; }
      else if EndsWith(filename, ".jpeg") { assert exts[1] in exts; }
      else if EndsWith(filename, ".png") { assert exts[2] in exts; }
      else if EndsWith(filename, ".bmp") { assert exts[3] in exts; }
      else { assert exts[4] in exts; }
    }
  }

  /** The test is case-sensitive: an upper-case extension is skipped. */
  lemma UpperCaseSkipped()
    ensures !IsImageFile("sign.JPG") && IsImageFile("sign.jpg")
  {
    assert "sign.JPG"[4..] == ".JPG";
    assert "sign.JPG"[3..] == "n.JPG";
    assert "sign.jpg"[4..] == ".jpg";
  }

  /**
   * The label drawn for a prediction in detect_from_folder and
   * detect_from_webcam: the class name when the probability is strictly above
   * the threshold, nothing otherwise.
   */
  function Label(classIndex: int, probability: real): (r: Option<string>)
    ensures r.Some? <==> probability > Threshold
    ensures r.Some? ==> r.value == ClassName(classIndex)
  {
    if probability > Threshold then Some(ClassName(classIndex)) else None
  }

  /** A probability exactly at the threshold is not labelled. */
  lemma ThresholdIsStrict(classIndex: int)
    ensures Label(classIndex, 0.5).None?
  {
  }
}
