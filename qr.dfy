/**
 * The deterministic helpers of the QR-code application (github/main.py):
 * the link test, the vCard and VEVENT payload texts, the menu choice, the
 * output paths, the decode fallback and the rules that decide which decoded
 * values a scan acts on. Dialogs, the camera, the QR encoder and decoder, the
 * browser and speech are outside the model; their answers are parameters.
 */
module QrCodes {
  import opened Wrappers
  import opened Strings

  /** is_link: a scanned text is treated as a link when it starts with "http" or "www". */
  predicate IsLink(data: string)
    ensures IsLink(data) <==> (|data| >= 4 && data[..4] == "http") || (|data| >= 3 && data[..3] == "www")
  {
    StartsWith(data, "http") || StartsWith(data, "www")
  }

  /** Being a link depends only on the first characters: appending text keeps it. */
  lemma IsLinkExtend(data: string, more: string)
    requires IsLink(data)
    ensures IsLink(data + more)
  {
    if StartsWith(data, "http") {
      StartsWithExtend(data, more, "http");
    } else {
      StartsWithExtend(data, more, "www");
    }
  }

  /** The lines of the contact payload, in order. */
  function ContactLines(name: string, number: string): seq<string>
  {
    ["BEGIN:VCARD", "VERSION:3.0", "FN:" + name, "TEL:" + number, "END:VCARD"]
  }

  /**
   * get_contact_information: a vCard 3.0 (RFC 2426) with an FN and a TEL
   * property, lines joined by a bare "\n", values inserted without escaping.
   */
  function ContactPayload(name: string, number: string): (r: string)
    ensures |r| == |name| + |number| + 42
    ensures StartsWith(r, "BEGIN:VCARD\n") && EndsWith(r, "\nEND:VCARD")
  {
    "BEGIN:VCARD" + "\n" + ("VERSION:3.0" + "\n" + ("FN:" + name + "\n" + ("TEL:" + number + "\n" + "END:VCARD")))
  }

  /** The contact payload is its five lines joined by line breaks. */
  lemma ContactPayloadJoin(name: string, number: string)
    ensures ContactPayload(name, number) == JoinLines(ContactLines(name, number))
  {
    var fn, tel := "FN:" + name, "TEL:" + number;
    JoinCons(tel, ["END:VCARD"]);
    JoinCons(fn, [tel, "END:VCARD"]);
    JoinCons("VERSION:3.0", [fn, tel, "END:VCARD"]);
    JoinCons("BEGIN:VCARD", ["VERSION:3.0", fn, tel, "END:VCARD"]);
  }

  /** Reading the contact payload back line by line gives its five lines, when neither value holds a line break. */
  lemma ContactPayloadLines(name: string, number: string)
    requires SingleLine(name) && SingleLine(number)
    ensures Split(ContactPayload(name, number)) == ContactLines(name, number)
    ensures Split(ContactPayload(name, number))[2][3..] == name
    ensures Split(ContactPayload(name, number))[3][4..] == number
  {
    var ls := ContactLines(name, number);
    assert SingleLine("FN:" + name) by {
      forall i | 0 <= i < |"FN:" + name| ensures ("FN:" + name)[i] != '\n' {
        if i >= 3 { assert ("FN:" + name)[i] == name[i - 3]; }
      }
    }
    assert SingleLine("TEL:" + number) by {
      forall i | 0 <= i < |"TEL:" + number| ensures ("TEL:" + number)[i] != '\n' {
        if i >= 4 { assert ("TEL:" + number)[i] == number[i - 4]; }
      }
    }
    ContactPayloadJoin(name, number);
    SplitJoin(ls);
  }

  /** The lines of the event payload, in order. */
  function EventLines(eventName: string, details: string): seq<string>
  {
    ["BEGIN:VEVENT", "SUMMARY:" + eventName, "DTSTART:20220101T120000", "DTEND:20220101T140000",
     "LOCATION:Example Venue", "DESCRIPTION:" + details, "END:VEVENT"]
  }

  /**
   * get_event_details: a VEVENT component (section 3.6.1 of RFC 5545) with the
   * user's SUMMARY and DESCRIPTION and fixed DTSTART, DTEND and LOCATION.
   */
  function EventPayload(eventName: string, details: string): (r: string)
    ensures |r| == |eventName| + |details| + 114
    ensures StartsWith(r, "BEGIN:VEVENT\n") && EndsWith(r, "\nEND:VEVENT")
  {
    "BEGIN:VEVENT" + "\n" + ("SUMMARY:" + eventName + "\n" + ("DTSTART:20220101T120000" + "\n" +
    ("DTEND:20220101T140000" + "\n" + ("LOCATION:Example Venue" + "\n" + ("DESCRIPTION:" + details + "\n" + "END:VEVENT")))))
  }

  /** The event payload is its seven lines joined by line breaks. */
  lemma EventPayloadJoin(eventName: string, details: string)
    ensures EventPayload(eventName, details) == JoinLines(EventLines(eventName, details))
  {
    var summary, description := "SUMMARY:" + eventName, "DESCRIPTION:" + details;
    JoinCons(description, ["END:VEVENT"]);
    JoinCons("LOCATION:Example Venue", [description, "END:VEVENT"]);
    JoinCons("DTEND:20220101T140000", ["LOCATION:Example Venue", description, "END:VEVENT"]);
    JoinCons("DTSTART:20220101T120000", ["DTEND:20220101T140000", "LOCATION:Example Venue", description, "END:VEVENT"]);
    JoinCons(summary, ["DTSTART:20220101T120000", "DTEND:20220101T140000", "LOCATION:Example Venue", description, "END:VEVENT"]);
    JoinCons("BEGIN:VEVENT", [summary, "DTSTART:20220101T120000", "DTEND:20220101T140000", "LOCATION:Example Venue", description, "END:VEVENT"]);
  }

  /** Reading the event payload back line by line gives its seven lines, when neither value holds a line break. */
  lemma EventPayloadLines(eventName: string, details: string)
    requires SingleLine(eventName) && SingleLine(details)
    ensures Split(EventPayload(eventName, details)) == EventLines(eventName, details)
    ensures Split(EventPayload(eventName, details))[1][8..] == eventName
    ensures Split(EventPayload(eventName, details))[5][12..] == details
  {
    var ls := EventLines(eventName, details);
    assert SingleLine("SUMMARY:" + eventName) by {
      forall i | 0 <= i < |"SUMMARY:" + eventName| ensures ("SUMMARY:" + eventName)[i] != '\n' {
        if i >= 8 { assert ("SUMMARY:" + eventName)[i] == eventName[i - 8]; }
      }
    }
    assert SingleLine("DESCRIPTION:" + details) by {
      forall i | 0 <= i < |"DESCRIPTION:" + details| ensures ("DESCRIPTION:" + details)[i] != '\n' {
        if i >= 12 { assert ("DESCRIPTION:" + details)[i] == details[i - 12]; }
      }
    }
    EventPayloadJoin(eventName, details);
    SplitJoin(ls);
  }

  /** The answers the follow-up dialogs of get_user_input would give. */
  datatype Answers = Answers(text: string, videoLink: string, payment: string,
                             contactName: string, contactNumber: string,
                             eventName: string, eventDetails: string)

  /** What get_user_input does with the typed choice. */
  datatype Selection =
    | Chosen(qrType: string, data: string)  // the (type, payload) pair it returns
    | NotANumber                            // int() raised; generate_qr_code reports the error
    | Exited                                // "Invalid choice": exit() ends the program

  /** The label of menu entries 1 to 6. */
  function ChoiceLabel(choice: int): (r: Option<string>)
    ensures r.Some? <==> 1 <= choice <= 6
  {
    if choice == 1 then Some("Text")
    else if choice == 2 then Some("Video Link")
    else if choice == 3 then Some("Payment Information")
    else if choice == 4 then Some("Contact Information")
    else if choice == 5 then Some("Event Details")
    else if choice == 6 then Some("Face Detection")
    else None
  }

  /** The six labels are distinct, so the label identifies the choice. */
  lemma ChoiceLabelInjective(c1: int, c2: int)
    requires ChoiceLabel(c1).Some? && ChoiceLabel(c1) == ChoiceLabel(c2)
    ensures c1 == c2
  {
  }

  /**
   * get_user_input. `choice` is None when the typed text is not an integer.
   * Each valid choice pairs its label with the payload its dialogs produce.
   */
  function UserInput(choice: Option<int>, answers: Answers): (r: Selection)
    ensures choice.None? <==> r.NotANumber?
    ensures r.Exited? <==> choice.Some? && !(1 <= choice.value <= 6)
    ensures r.Chosen? ==> Some(r.qrType) == ChoiceLabel(choice.value)
    ensures r.Chosen? && choice.value == 1 ==> r.data == answers.text
    ensures r.Chosen? && choice.value == 2 ==> r.data == answers.videoLink
    ensures r.Chosen? && choice.value == 3 ==> r.data == answers.payment
    ensures r.Chosen? && choice.value == 4 ==> r.data == ContactPayload(answers.contactName, answers.contactNumber)
    ensures r.Chosen? && choice.value == 5 ==> r.data == EventPayload(answers.eventName, answers.eventDetails)
    ensures r.Chosen? && choice.value == 6 ==> r == Chosen("Face Detection", "Face Detection")
  {
    match choice
    case None => NotANumber
    case Some(c) =>
      match ChoiceLabel(c)
      case None => Exited
      case Some(qrType) =>
        if c == 1 then Chosen(qrType, answers.text)
        else if c == 2 then Chosen(qrType, answers.videoLink)
        else if c == 3 then Chosen(qrType, answers.payment)
        else if c == 4 then Chosen(qrType, ContactPayload(answers.contactName, answers.contactNumber))
        else if c == 5 then Chosen(qrType, EventPayload(answers.eventName, answers.eventDetails))
        else Chosen(qrType, "Face Detection")
  }

  const SelectionFolder: string := "output/selection/"
  const SelectionFolderLength: nat := 17

  /** Length of a timestamp formatted as "%Y-%m-%d_%H-%M-%S". */
  const TimestampLength: nat := 19

  /** The file generate_qr_code writes: "<type>_<timestamp>.png" inside output/selection. */
  function GeneratedPath(qrType: string, timestamp: string): (r: string)
    ensures StartsWith(r, SelectionFolder) && EndsWith(r, ".png")
    ensures |r| == SelectionFolderLength + |qrType| + 1 + |timestamp| + 4
  {
    SelectionFolder + qrType + "_" + timestamp + ".png"
  }

  /** Recovers the type and the timestamp from a generated path; the timestamp has a fixed width. */
  function ParseGeneratedPath(path: string): Option<(string, string)>
  {
    var n := |path|;
    if n < SelectionFolderLength + 1 + TimestampLength + 4 then None
    else Some((path[SelectionFolderLength .. n - TimestampLength - 5], path[n - TimestampLength - 4 .. n - 4]))
  }

  /** Round trip: a generated path names its type and its timestamp, so two generations at different times never share a file. */
  lemma GeneratedPathRoundTrip(qrType: string, timestamp: string)
    requires |timestamp| == TimestampLength
    ensures ParseGeneratedPath(GeneratedPath(qrType, timestamp)) == Some((qrType, timestamp))
  {
    var p := GeneratedPath(qrType, timestamp);
    var n := |p|;
    assert p[SelectionFolderLength .. n - TimestampLength - 5] == qrType;
    assert p[n - TimestampLength - 4 .. n - 4] == timestamp;
  }

  /** The file convert_to_qr_code writes for a captured face image. */
  function FaceQrPath(imageName: string): (r: string)
    ensures StartsWith(r, "output/") && EndsWith(r, "_qr_code.png")
    ensures |r| == |imageName| + 19
  {
    "output/" + imageName + "_qr_code.png"
  }

  /** Distinct image names give distinct QR files. */
  lemma FaceQrPathInjective(a: string, b: string)
    requires FaceQrPath(a) == FaceQrPath(b)
    ensures a == b
  {
    assert FaceQrPath(a)[7..|a| + 7] == a;
    assert FaceQrPath(b)[7..|b| + 7] == b;
  }

  const DecodingFailed: string := "Decoding failed"

  /**
   * decode_qr_code: the first decoded text when the detector succeeded,
   * otherwise the fixed message. A successful detection always carries at
   * least one decoded text.
   */
  function DecodeQrCode(retval: bool, decodedInfo: seq<string>): (r: string)
    requires retval ==> |decodedInfo| >= 1
    ensures retval ==> r == decodedInfo[0]
    ensures !retval ==> r == DecodingFailed
  {
    if retval then decodedInfo[0] else DecodingFailed
  }

  /** process_scanned_data: a link is announced and opened in the browser; other text is ignored. */
  datatype ScanAction = OpenLink(url: string) | Ignore

  function ProcessScanned(data: string): (a: ScanAction)
    ensures a.OpenLink? <==> IsLink(data)
    ensures a.OpenLink? ==> a.url == data
  {
    if IsLink(data) then OpenLink(data) else Ignore
  }

  /** Index of the first link in the decoded texts, or the length when there is none. */
  function FirstLink(values: seq<string>): (k: nat)
    ensures k <= |values|
    ensures k < |values| ==> IsLink(values[k])
    ensures forall j :: 0 <= j < k ==> !IsLink(values[j])
  {
    if |values| == 0 then 0
    else if IsLink(values[0]) then 0
    else 1 + FirstLink(values[1..])
  }

  /**
   * One camera frame of scan_qr_code_camera: each decoded text in order is
   * logged and processed, and the scan ends (closing the window) at the first
   * text that is a link. Returns the texts handled in this frame, the action
   * taken for each, and whether the scan ended.
   */
  method ScanCameraFrame(retval: bool, decodedInfo: seq<string>)
    returns (handled: seq<string>, actions: seq<ScanAction>, finished: bool)
    ensures !retval ==> handled == [] && !finished
    ensures retval ==> handled == decodedInfo[..if FirstLink(decodedInfo) < |decodedInfo| then FirstLink(decodedInfo) + 1 else |decodedInfo|]
    ensures finished <==> retval && exists j :: 0 <= j < |decodedInfo| && IsLink(decodedInfo[j])
    ensures |actions| == |handled|
    ensures forall i :: 0 <= i < |handled| ==> actions[i] == ProcessScanned(handled[i])
  {
    handled, actions, finished := [], [], false;
    if retval {
      var i := 0;
      while i < |decodedInfo|
        invariant 0 <= i <= |decodedInfo|
        invariant i <= FirstLink(decodedInfo)
        invariant handled == decodedInfo[..i]
        invariant |actions| == i
        invariant forall j :: 0 <= j < i ==> actions[j] == ProcessScanned(handled[j])
      {
        var value := decodedInfo[i];
        handled := handled + [value];
        actions := actions + [ProcessScanned(value)];
        if IsLink(value) {
          finished := true;
          return;
        }
        i := i + 1;
      }
    }
  }

  /**
   * scan_generated_qr_code: its loop over the decoded texts breaks after the
   * first pass, so only the first text is processed and shown. None when
   * nothing was decoded.
   */
  function ScanFile(retval: bool, decodedInfo: seq<string>): (r: Option<(string, ScanAction)>)
    ensures r.Some? <==> retval && |decodedInfo| >= 1
    ensures r.Some? ==> r.value == (decodedInfo[0], ProcessScanned(decodedInfo[0]))
  {
    if retval && |decodedInfo| >= 1 then Some((decodedInfo[0], ProcessScanned(decodedInfo[0]))) else None
  }

  /** On a successful detection the decode fallback gives the same text a file scan shows. */
  lemma DecodeAgreesWithScanFile(retval: bool, decodedInfo: seq<string>)
    requires retval && |decodedInfo| >= 1
    ensures DecodeQrCode(retval, decodedInfo) == ScanFile(retval, decodedInfo).value.0
  {
  }

  /** What pressing "Generate QR Code" leads to. */
  datatype Generation =
    | Written(path: string, payload: string)  // the QR image written and the text it encodes
    | Failed                                  // the exception is caught and reported
    | ProgramExit                             // exit() from an invalid menu choice

  /** generate_qr_code up to writing the image: the chosen payload goes to the timestamped file. */
  function GenerateQrCode(choice: Option<int>, answers: Answers, timestamp: string): (g: Generation)
    ensures g.Written? <==> choice.Some? && 1 <= choice.value <= 6
    ensures g.Failed? <==> choice.None?
    ensures g.Written? ==> exists t :: Some(t) == ChoiceLabel(choice.value) && g.path == GeneratedPath(t, timestamp)
    ensures g.Written? ==> UserInput(choice, answers).Chosen? && g.payload == UserInput(choice, answers).data
                           && g.path == GeneratedPath(UserInput(choice, answers).qrType, timestamp)
  {
    match UserInput(choice, answers)
    case Chosen(t, data) => Written(GeneratedPath(t, timestamp), data)
    case NotANumber => Failed
    case Exited => ProgramExit
  }
}
