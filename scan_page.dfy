/**
 * The worker's scanner page: a four-state machine (`idle`, `scanning`, `success`,
 * `error`) with an `isProcessing` guard, a camera stream that is held or released, and
 * a scan loop run once per animation frame.
 *
 * The camera and the decoder are inputs, and every asynchronous step is split where it
 * waits: `StartScanning` asks for the camera and `CameraSettled` is told whether it was
 * granted; `Tick` captures a frame and `DecodeDone` is the decoder's continuation;
 * `HandleQRDetected` sends the check-in and `Complete` receives the server's reply.
 * Any number of these may be outstanding, since the stop buttons stay enabled while
 * they are, and any event may come between a step and its continuation.
 */
module ScanPage {
  import opened Wrappers
  import opened Text
  import QrAttendance
  import AttendanceRoute

  datatype ScanState = Idle | Scanning | Success | Error

  /** What the synchronous part of one scan-loop run finds. */
  datatype Frame =
    | NoElements                      // the video or canvas element is not mounted
    | NotReady                        // the video's readyState is below 2
    | NoContext                       // the canvas has no 2d context
    | Captured                        // the frame was drawn and the decoder is being loaded

  /** What the decoder's continuation gets. */
  datatype Decoding =
    | DecoderUnavailable              // loading the decoder failed
    | Decoded(data: Option<string>)   // the decoder's text; None when no code was found

  /** The outcome of the check-in request. */
  datatype Reply =
    | Ok(checkInTime: string)         // a 2xx response with its record
    | Rejected(error: Option<string>) // any other status with the body's `error` field
    | NetworkFailure                  // fetch or JSON decoding threw

  const MsgCamera: string := "تعذّر الوصول إلى الكاميرا. تأكد من منح الإذن."
  const MsgSuccessPrefix: string := "تم تسجيل حضورك بنجاح في "
  const MsgFailed: string := "فشل تسجيل الحضور"
  const MsgNetwork: string := "حدث خطأ في الاتصال"

  /** `code && code.data && code.data.startsWith('AREEJ-ATT-')` */
  predicate Submittable(data: Option<string>) {
    data.Some? && data.value != "" && StartsWith(data.value, QrAttendance.TokenPrefix)
  }

  /** The prefix filter only screens out foreign codes: every generated token passes. */
  lemma GeneratedTokenSubmittable(date: string, mac: QrAttendance.Mac)
    ensures Submittable(Some(QrAttendance.Generate(date, mac)))
  {
  }

  /** The prefix filter is weaker than the validator's shape check: every string the
      validator can parse passes it, but not the other way round. */
  lemma ParsedTokenSubmittable(s: string)
    ensures QrAttendance.Parse(s).Some? ==> Submittable(Some(s))
    ensures Submittable(Some("AREEJ-ATT-")) && QrAttendance.Parse("AREEJ-ATT-").None?
  {
    if QrAttendance.Parse(s).Some? {
      var p := QrAttendance.Parse(s).value;
      assert s == QrAttendance.TokenPrefix + (p.0 + "-" + p.1);
    }
  }

  /** The reply the page sees for a response of the attendance route. */
  function ReplyOf(resp: AttendanceRoute.Response): (r: Reply)
    ensures r.Ok? <==> resp.Created?
    ensures resp.Failed? ==> r == Rejected(Some(resp.error))
  {
    match resp
    case Created(record) => Ok(record.checkInTime)
    case Failed(_, error) => Rejected(Some(error))
  }

  /** `data.error || 'فشل تسجيل الحضور'` */
  function RejectionMessage(error: Option<string>): (m: string)
    ensures m != ""
    ensures error.Some? && error.value != "" ==> m == error.value
    ensures error.None? || error == Some("") ==> m == MsgFailed
  {
    if error.Some? && error.value != "" then error.value else MsgFailed
  }

  class Scanner {
    var scanState: ScanState
    var resultMessage: string
    var cameraError: string
    var isProcessing: bool
    /** `streamRef.current != null` */
    var streamHeld: bool
    /** A run of the scan loop is due (called directly or requested as an animation frame). */
    var framePending: bool
    var workerId: string
    /** Camera requests (`getUserMedia`) started and not yet settled. */
    var cameraRequests: nat
    /** Scan-loop runs whose decoder continuation has not run yet. */
    var decodesPending: nat
    /** Check-in requests sent whose reply has not arrived. */
    var inFlight: nat
    /** Streams dropped from `streamRef` without their tracks being stopped. */
    var strayStreams: nat
    /** How many times `reset` ran; a request is current when no reset came after it. */
    var resets: nat

    /** The states the page is drawn for: a scan loop runs, or its decoding is under
        way, only on a held stream and one at a time; the camera is held only while
        scanning and not processing; a request is in flight only while scanning with the
        camera released; a camera error is only shown in `idle`; a result message is
        shown exactly in `success` and `error`; and while scanning exactly one of a
        camera request, a held stream and a check-in request is outstanding. */
    ghost predicate Settled()
      reads this
    {
      && (framePending ==> streamHeld && decodesPending == 0)
      && (decodesPending > 0 ==> streamHeld && decodesPending == 1)
      && (streamHeld ==> scanState == Scanning && !isProcessing)
      && (isProcessing ==> scanState == Scanning && !streamHeld)
      && (cameraError != "" ==> scanState == Idle)
      && (resultMessage != "" <==> scanState == Success || scanState == Error)
      && inFlight == (if isProcessing then 1 else 0)
      && cameraRequests + inFlight + (if streamHeld then 1 else 0) == (if scanState == Scanning then 1 else 0)
    }

    /** The page as first rendered, once the worker id has been fetched. */
    constructor(workerId: string)
      ensures Settled()
      ensures scanState == Idle && resultMessage == "" && cameraError == ""
      ensures !isProcessing && !streamHeld && !framePending && this.workerId == workerId
      ensures cameraRequests == 0 && decodesPending == 0 && inFlight == 0
      ensures strayStreams == 0 && resets == 0
    {
      scanState := Idle;
      resultMessage := "";
      cameraError := "";
      isProcessing := false;
      streamHeld := false;
      framePending := false;
      this.workerId := workerId;
      cameraRequests := 0;
      decodesPending := 0;
      inFlight := 0;
      strayStreams := 0;
      resets := 0;
    }

    /** `stopCamera`: releases the stream and cancels the pending frame; calling it again
        changes nothing more. A decoder continuation already under way is not cancelled. */
    method StopCamera()
      modifies this`streamHeld, this`framePending
      ensures !streamHeld && !framePending
    {
      if streamHeld {
        streamHeld := false;
      }
      framePending := false;
    }

    /** `startScanning` up to its `await`: offered only from `idle` by a button disabled
        while processing, it shows the scanner and asks for the camera. */
    method StartScanning()
      requires scanState == Idle && !isProcessing
      modifies this`scanState, this`cameraError, this`resultMessage, this`cameraRequests
      ensures scanState == Scanning && cameraError == "" && resultMessage == ""
      ensures cameraRequests == old(cameraRequests) + 1
      ensures old(Settled()) ==> Settled()
    {
      scanState := Scanning;
      cameraError := "";
      resultMessage := "";
      cameraRequests := cameraRequests + 1;
    }

    /** `startScanning` after its `await`, when one camera request settles; `granted` says
        whether the camera could be opened. Nothing checks that the page is still
        scanning, and a stream already held is replaced without being stopped. */
    method CameraSettled(granted: bool)
      requires cameraRequests > 0
      modifies this`cameraRequests, this`strayStreams, this`streamHeld, this`framePending,
               this`cameraError, this`scanState
      ensures cameraRequests == old(cameraRequests) - 1
      ensures granted ==>
                && streamHeld && framePending
                && strayStreams == old(strayStreams) + (if old(streamHeld) then 1 else 0)
                && scanState == old(scanState) && cameraError == old(cameraError)
      ensures !granted ==>
                && scanState == Idle && cameraError == MsgCamera
                && streamHeld == old(streamHeld) && framePending == old(framePending)
                && strayStreams == old(strayStreams)
      ensures old(Settled()) ==> Settled()
    {
      cameraRequests := cameraRequests - 1;
      if granted {
        if streamHeld {
          strayStreams := strayStreams + 1;
        }
        streamHeld := true;
        framePending := true;
      } else {
        cameraError := MsgCamera;
        scanState := Idle;
      }
    }

    /** The camera continuation the page evidently intends: a stream granted for a start
        made before the last `reset` (`startedAt` is the reset count when start was
        pressed) is stopped at once; a current one is handled as `CameraSettled` does. */
    method CameraSettledCurrent(startedAt: nat, granted: bool)
      requires cameraRequests > 0
      modifies this`cameraRequests, this`strayStreams, this`streamHeld, this`framePending,
               this`cameraError, this`scanState
      ensures cameraRequests == old(cameraRequests) - 1
      ensures startedAt != resets ==>
                && streamHeld == old(streamHeld) && framePending == old(framePending)
                && strayStreams == old(strayStreams)
                && scanState == old(scanState) && cameraError == old(cameraError)
      ensures startedAt == resets && granted ==>
                && streamHeld && framePending
                && strayStreams == old(strayStreams) + (if old(streamHeld) then 1 else 0)
                && scanState == old(scanState) && cameraError == old(cameraError)
      ensures startedAt == resets && !granted ==>
                && scanState == Idle && cameraError == MsgCamera
                && streamHeld == old(streamHeld) && framePending == old(framePending)
                && strayStreams == old(strayStreams)
    {
      if startedAt == resets {
        CameraSettled(granted);
      } else {
        cameraRequests := cameraRequests - 1;
      }
    }

    /** The synchronous part of one `scanLoop` run: without the elements or a ready video
        it reschedules itself; without a canvas context it stops for good; otherwise it
        draws the frame and starts loading the decoder, whose continuation runs later.
        The loop's own `isProcessing` check belongs to the closure of the render in which
        start was pressed, where the flag is false (the button is disabled otherwise), so
        it never stops the loop. */
    method Tick(frame: Frame)
      modifies this`framePending, this`decodesPending
      ensures !old(framePending) || frame.NoElements? || frame.NotReady? ==>
                framePending == old(framePending) && decodesPending == old(decodesPending)
      ensures old(framePending) && frame.NoContext? ==>
                !framePending && decodesPending == old(decodesPending)
      ensures old(framePending) && frame.Captured? ==>
                !framePending && decodesPending == old(decodesPending) + 1
      ensures old(Settled()) ==> Settled()
    {
      if !framePending || frame.NoElements? || frame.NotReady? {
        return;
      }
      framePending := false;
      if frame.Captured? {
        decodesPending := decodesPending + 1;
      }
    }

    /** The decoder's continuation (`import('jsqr').then(...)`), for any run under way:
        a code with the `AREEJ-ATT-` prefix goes to the stale `handleQRDetected`, which
        sends the check-in; anything else, or a decoder that failed to load, schedules
        the loop again. Nothing checks that the camera is still held or the page still
        scanning. It returns the check-in request it sent, if any. */
    method DecodeDone(outcome: Decoding) returns (request: Option<AttendanceRoute.CheckInRequest>)
      requires decodesPending > 0
      modifies this`decodesPending, this`framePending, this`isProcessing, this`inFlight, this`streamHeld
      ensures decodesPending == old(decodesPending) - 1
      ensures request.Some? <==> outcome.Decoded? && Submittable(outcome.data)
      ensures request.Some? ==>
                && request.value == AttendanceRoute.CheckInRequest(workerId, outcome.data, Some("qr"))
                && isProcessing && !streamHeld && !framePending && inFlight == old(inFlight) + 1
      ensures request.None? ==>
                && framePending && streamHeld == old(streamHeld)
                && isProcessing == old(isProcessing) && inFlight == old(inFlight)
      ensures old(Settled()) ==> Settled()
    {
      decodesPending := decodesPending - 1;
      if outcome.Decoded? && Submittable(outcome.data) {
        request := HandleQRDetected(outcome.data.value, false);
      } else {
        framePending := true;
        request := None;
      }
    }

    /** `handleQRDetected` up to its network call, run by a closure that sees the guard as
        `seenProcessing`: ignored when that is up; otherwise it sets the guard, releases
        the camera and sends the check-in. Nothing checks the page's state. */
    method HandleQRDetected(qr: string, seenProcessing: bool)
      returns (request: Option<AttendanceRoute.CheckInRequest>)
      modifies this`isProcessing, this`inFlight, this`streamHeld, this`framePending
      ensures seenProcessing ==> request.None? && unchanged(this)
      ensures !seenProcessing ==>
                && request == Some(AttendanceRoute.CheckInRequest(workerId, Some(qr), Some("qr")))
                && isProcessing && !streamHeld && !framePending && inFlight == old(inFlight) + 1
      ensures old(Settled()) && old(streamHeld) && decodesPending == 0 && !seenProcessing ==> Settled()
    {
      if seenProcessing {
        return None;
      }
      isProcessing := true;
      inFlight := inFlight + 1;
      StopCamera();
      request := Some(AttendanceRoute.CheckInRequest(workerId, Some(qr), Some("qr")));
    }

    /** `handleQRDetected` after its network call, for any request in flight: nothing
        checks that the page is still waiting for it. */
    method Complete(reply: Reply)
      requires inFlight > 0
      modifies this`scanState, this`resultMessage, this`isProcessing, this`inFlight
      ensures !isProcessing && inFlight == old(inFlight) - 1
      ensures reply.Ok? ==> scanState == Success && resultMessage == MsgSuccessPrefix + reply.checkInTime
      ensures reply.Rejected? ==> scanState == Error && resultMessage == RejectionMessage(reply.error)
      ensures reply.NetworkFailure? ==> scanState == Error && resultMessage == MsgNetwork
      ensures old(Settled()) ==> Settled()
    {
      match reply {
        case Ok(checkInTime) =>
          scanState := Success;
          resultMessage := MsgSuccessPrefix + checkInTime;
        case Rejected(error) =>
          scanState := Error;
          resultMessage := RejectionMessage(error);
        case NetworkFailure =>
          scanState := Error;
          resultMessage := MsgNetwork;
      }
      isProcessing := false;
      inFlight := inFlight - 1;
    }

    /** The reply handling the page evidently intends: a reply to a request sent before
        the last `reset` (`sentAt` is the reset count when it was sent) only retires the
        request; a current reply is handled as `Complete` does. */
    method CompleteCurrent(sentAt: nat, reply: Reply)
      requires inFlight > 0
      modifies this`scanState, this`resultMessage, this`isProcessing, this`inFlight
      ensures inFlight == old(inFlight) - 1
      ensures sentAt != resets ==>
                scanState == old(scanState) && resultMessage == old(resultMessage)
                && isProcessing == old(isProcessing)
      ensures sentAt == resets ==>
                && !isProcessing
                && (reply.Ok? ==> scanState == Success && resultMessage == MsgSuccessPrefix + reply.checkInTime)
                && (reply.Rejected? ==> scanState == Error && resultMessage == RejectionMessage(reply.error))
                && (reply.NetworkFailure? ==> scanState == Error && resultMessage == MsgNetwork)
    {
      if sentAt == resets {
        Complete(reply);
      } else {
        inFlight := inFlight - 1;
      }
    }

    /** `reset`: back to `idle` with the camera released and everything cleared. Camera
        requests, decoder continuations and check-ins still outstanding are not
        cancelled, so the page is settled afterwards only when none is. */
    method Reset()
      modifies this`streamHeld, this`framePending, this`scanState, this`resultMessage,
               this`cameraError, this`isProcessing, this`resets
      ensures scanState == Idle && resultMessage == "" && cameraError == ""
      ensures !isProcessing && !streamHeld && !framePending && resets == old(resets) + 1
      ensures cameraRequests == 0 && decodesPending == 0 && inFlight == 0 ==> Settled()
    {
      StopCamera();
      scanState := Idle;
      resultMessage := "";
      cameraError := "";
      isProcessing := false;
      resets := resets + 1;
    }
  }

  /** The stop button stays enabled while the check-in is in flight. Pressing it and
      starting again before the reply arrives leaves the page, once the camera is back,
      showing success with the camera held and the scan loop running: a state the page
      is not drawn for. */
  method LateReplyAfterRestart(token: string, time: string)
    returns (state: ScanState, message: string, cameraHeld: bool, looping: bool)
    requires StartsWith(token, QrAttendance.TokenPrefix)
    ensures state == Success && message == MsgSuccessPrefix + time
    ensures cameraHeld && looping
  {
    var s := new Scanner("w");
    s.StartScanning();
    s.CameraSettled(true);
    s.Tick(Captured);
    var request := s.DecodeDone(Decoded(Some(token)));
    s.Reset();
    s.StartScanning();
    s.CameraSettled(true);
    s.Complete(Ok(time));
    state, message, cameraHeld, looping := s.scanState, s.resultMessage, s.streamHeld, s.framePending;
  }

  /** With replies checked against the reset count, the same steps leave the page
      scanning with no message: the reply of the abandoned request changes nothing. */
  method ResetDropsLateReply(token: string, time: string)
    returns (state: ScanState, message: string, cameraHeld: bool, looping: bool)
    requires StartsWith(token, QrAttendance.TokenPrefix)
    ensures state == Scanning && message == ""
    ensures cameraHeld && looping
  {
    var s := new Scanner("w");
    s.StartScanning();
    s.CameraSettled(true);
    s.Tick(Captured);
    var request := s.DecodeDone(Decoded(Some(token)));
    var sentAt := s.resets;
    s.Reset();
    s.StartScanning();
    s.CameraSettled(true);
    s.CompleteCurrent(sentAt, Ok(time));
    state, message, cameraHeld, looping := s.scanState, s.resultMessage, s.streamHeld, s.framePending;
  }

  /** Stopping while the camera permission is pending does not stop what follows: the
      camera opens and the scan loop runs on the idle page. Starting again from there
      makes the next stream replace the held one, whose tracks are never stopped. */
  method StopDuringCameraRequest() returns (state: ScanState, cameraHeld: bool, looping: bool, stray: nat)
    ensures state == Idle && cameraHeld && looping
    ensures stray == 1
  {
    var s := new Scanner("w");
    s.StartScanning();
    s.Reset();
    s.CameraSettled(true);
    state, cameraHeld, looping := s.scanState, s.streamHeld, s.framePending;
    s.StartScanning();
    s.CameraSettled(true);
    stray := s.strayStreams;
  }

  /** With camera grants checked against the reset count, the same steps leave the idle
      page without a camera or a loop, and no stream is ever left running. */
  method StopDuringCameraRequestFixed() returns (state: ScanState, cameraHeld: bool, looping: bool, stray: nat)
    ensures state == Idle && !cameraHeld && !looping
    ensures stray == 0
  {
    var s := new Scanner("w");
    s.StartScanning();
    var startedAt := s.resets;
    s.Reset();
    s.CameraSettledCurrent(startedAt, true);
    state, cameraHeld, looping := s.scanState, s.streamHeld, s.framePending;
    s.StartScanning();
    startedAt := s.resets;
    s.CameraSettledCurrent(startedAt, true);
    stray := s.strayStreams;
  }

  /** Stopping while the decoder is being loaded does not stop its continuation. With a
      token in the frame, the idle page sends the check-in without a camera and then
      shows the reply; without one, the scan loop is scheduled again with no stream. */
  method StopDuringDecode(token: string, time: string)
    returns (sent: bool, stateWhenSent: ScanState, finalState: ScanState, loopingWithoutCamera: bool)
    requires StartsWith(token, QrAttendance.TokenPrefix)
    ensures sent && stateWhenSent == Idle && finalState == Success
    ensures loopingWithoutCamera
  {
    var s := new Scanner("w");
    s.StartScanning();
    s.CameraSettled(true);
    s.Tick(Captured);
    s.Reset();
    var request := s.DecodeDone(Decoded(Some(token)));
    sent, stateWhenSent := request.Some?, s.scanState;
    s.Complete(Ok(time));
    finalState := s.scanState;

    var t := new Scanner("w");
    t.StartScanning();
    t.CameraSettled(true);
    t.Tick(Captured);
    t.Reset();
    var none := t.DecodeDone(Decoded(None));
    loopingWithoutCamera := t.framePending && !t.streamHeld;
  }

  /** A whole scan: the camera shows today's token, the request reaches the attendance
      route, and its answer is shown. For a known worker not yet checked in today the page
      ends in `success` and the store gains the worker's QR record for today. */
  method ScanTodaysToken(scanner: Scanner, store: AttendanceRoute.AttendanceStore,
                         today: string, time: string, mac: QrAttendance.Mac)
    requires scanner.Settled() && scanner.framePending
    requires store.Valid()
    requires QrAttendance.IsHmacHex(mac) && QrAttendance.DateShaped(today)
    requires scanner.workerId in store.workers
    requires !AttendanceRoute.HasRecord(store.records, scanner.workerId, today)
    modifies scanner, store
    ensures scanner.Settled() && store.Valid()
    ensures scanner.scanState == Success && scanner.resultMessage == MsgSuccessPrefix + time
    ensures !scanner.isProcessing && !scanner.streamHeld
    ensures scanner.workerId == old(scanner.workerId) && store.workers == old(store.workers)
    ensures store.records == old(store.records) +
              [AttendanceRoute.Record(scanner.workerId, store.workers[scanner.workerId], today, time, "qr")]
  {
    var token := QrAttendance.Generate(today, mac);
    GeneratedTokenSubmittable(today, mac);
    scanner.Tick(Captured);
    var request := scanner.DecodeDone(Decoded(Some(token)));
    QrAttendance.ValidateToday(today, mac);
    var resp := store.Post(request.value, today, time, mac);
    scanner.Complete(ReplyOf(resp));
  }
}
