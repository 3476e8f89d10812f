/**
 * The recording viewer (azouz.py): a timer polls the camera, Start/Stop
 * Recording buttons open and release an XVID video writer, and a slider sets
 * the frame rate, rescheduling the poll.
 */
module RecorderApp {
  import opened Wrappers
  import opened Clock
  import opened Decimal
  import opened Drawing

  const InitialFrameRate := 30
  const MinFrameRate := 1
  const MaxFrameRate := 60

  // ---------------------------------------------------------------------
  // Recording file name: "stream_", the local time as year, month, day, hour,
  // minute and second, zero-padded to 4, 2, 2, 2, 2, 2 digits, then ".avi"
  // ---------------------------------------------------------------------

  /** The fields of `datetime.now()` that the file name uses. */
  datatype Timestamp = Timestamp(year: int, month: int, day: int, hour: int, minute: int, second: int)

  /** A wall-clock time with a four-digit year. */
  predicate ValidTimestamp(t: Timestamp)
  {
    && 1000 <= t.year <= 9999
    && 1 <= t.month <= 12
    && 1 <= t.day <= 31
    && 0 <= t.hour <= 23
    && 0 <= t.minute <= 59
    && 0 <= t.second <= 59
  }

  /** The fourteen-digit timestamp `strftime` prints for the pattern year-month-day-hour-minute-second. */
  function Stamp(t: Timestamp): (s: string)
    requires ValidTimestamp(t)
  {
    PadLeft(t.year, 4) + PadLeft(t.month, 2) + PadLeft(t.day, 2)
      + PadLeft(t.hour, 2) + PadLeft(t.minute, 2) + PadLeft(t.second, 2)
  }

  function RecordingFilename(t: Timestamp): (name: string)
    requires ValidTimestamp(t)
  {
    "stream_" + Stamp(t) + ".avi"
  }

  /** Reads the timestamp back out of a recording file name, if it has that shape. */
  function ParseFilename(name: string): Option<Timestamp>
  {
    if |name| == 25 && name[..7] == "stream_" && name[21..] == ".avi" && AllDigits(name[7..21]) then
      var digits := name[7..21];
      assert forall i :: 0 <= i <= 14 ==> AllDigits(digits[i..]) && AllDigits(digits[..i]);
      Some(Timestamp(ParseNat(digits[..4]), ParseNat(digits[4..6]), ParseNat(digits[6..8]),
                     ParseNat(digits[8..10]), ParseNat(digits[10..12]), ParseNat(digits[12..])))
    else None
  }

  /**
   * The file name is "stream_", fourteen digits and ".avi", and the digits
   * give back the timestamp: distinct times name distinct files.
   */
  lemma FilenameRoundTrip(t: Timestamp)
    requires ValidTimestamp(t)
    ensures var name := RecordingFilename(t);
      && |name| == 25 && name[..7] == "stream_" && name[21..] == ".avi"
      && AllDigits(name[7..21])
      && ParseFilename(name) == Some(t)
  {
    var y, mo, d := PadLeft(t.year, 4), PadLeft(t.month, 2), PadLeft(t.day, 2);
    var h, mi, s := PadLeft(t.hour, 2), PadLeft(t.minute, 2), PadLeft(t.second, 2);
    var digits := Stamp(t);
    assert digits == y + mo + d + h + mi + s;
    assert digits[..4] == y;
    assert digits[4..6] == mo;
    assert digits[6..8] == d;
    assert digits[8..10] == h;
    assert digits[10..12] == mi;
    assert digits[12..] == s;
    var name := RecordingFilename(t);
    assert name[7..21] == digits;
  }

  // ---------------------------------------------------------------------
  // Frame-rate label: "Frame Rate: " followed by the rate in decimal
  // ---------------------------------------------------------------------

  function RateLabel(rate: nat): string
  {
    "Frame Rate: " + NatToString(rate)
  }

  /** The label `build` shows is the one `update_frame_rate` would show for 30. */
  lemma InitialLabel()
    ensures RateLabel(InitialFrameRate) == "Frame Rate: 30"
  {
    assert NatToString(3) == "3";
    assert NatToString(InitialFrameRate) == NatToString(3) + [DigitChar(0)];
  }

  // ---------------------------------------------------------------------
  // The app
  // ---------------------------------------------------------------------

  /** An OpenCV video writer: its file name, codec four-character code, frames per second and frame size. */
  datatype VideoWriter = VideoWriter(filename: string, fourcc: string, fps: int, frameSize: Size)

  /** A call made on a video writer. */
  datatype WriterCall = Wrote(writer: VideoWriter, frame: Frame) | Released(writer: VideoWriter)

  class Esp32CamApp {
    var recording: bool
    var videoWriter: Option<VideoWriter>
    var frameRate: int
    var frameRateLabel: string
    var startDisabled: bool
    var stopDisabled: bool
    /** The image widget's texture, known by its size. */
    var texture: Option<Size>
    /** The clock's registry, as far as `update_stream` is concerned. */
    var timers: seq<Timer>
    /** Every `write` and `release` made on a video writer, in order. */
    var writerCalls: seq<WriterCall>

    /**
     * The buttons mirror `recording`, a writer is open exactly while
     * recording, the rate lies in the slider's range and the label shows it,
     * and exactly one poll event runs, at that rate.
     */
    ghost predicate Valid()
      reads this
    {
      && startDisabled == recording
      && stopDisabled == !recording
      && (recording <==> videoWriter.Some?)
      && MinFrameRate <= frameRate <= MaxFrameRate
      && frameRateLabel == RateLabel(frameRate)
      && Count(timers, Callback.UpdateStream) == 1
      && Timer(Callback.UpdateStream, frameRate) in timers
    }

    /** No texture and not recording: the state `build` leaves. */
    ghost predicate Dormant()
      reads this
    {
      texture.None? && !recording
    }

    /** `build`: not recording, no writer, rate 30 with its label, one poll event at 30 per second. */
    constructor Build()
      ensures Valid() && Dormant()
      ensures !recording && videoWriter == None && frameRate == InitialFrameRate
      ensures frameRateLabel == "Frame Rate: 30"
      ensures !startDisabled && stopDisabled
      ensures timers == [Timer(Callback.UpdateStream, InitialFrameRate)]
      ensures texture == None && writerCalls == []
    {
      recording := false;
      videoWriter := None;
      frameRate := InitialFrameRate;
      InitialLabel();
      frameRateLabel := RateLabel(InitialFrameRate);
      startDisabled := false;
      stopDisabled := true;
      texture := None;
      timers := ScheduleInterval([], Callback.UpdateStream, InitialFrameRate);
      writerCalls := [];
    }

    /**
     * `update_stream` as written: nothing happens unless recording; then a
     * fetched and decoded frame becomes the texture and is written when a
     * writer is open. A failed fetch or decode (`None`) is caught and changes
     * nothing.
     */
    method UpdateStream(fetched: Option<Frame>)
      modifies this
      ensures !old(recording) || fetched.None? ==> unchanged(this)
      ensures old(recording) && fetched.Some? ==>
        && texture == Some(SizeOf(fetched.value))
        && writerCalls == old(writerCalls) + (if videoWriter.Some? then [Wrote(videoWriter.value, fetched.value)] else [])
      ensures recording == old(recording) && videoWriter == old(videoWriter) && frameRate == old(frameRate)
      ensures frameRateLabel == old(frameRateLabel) && timers == old(timers)
      ensures startDisabled == old(startDisabled) && stopDisabled == old(stopDisabled)
      ensures old(Valid()) ==> Valid()
      ensures old(Dormant()) ==> Dormant()
    {
      if recording {
        match fetched {
          case None =>
          case Some(img) =>
            texture := Some(SizeOf(img));
            if recording && videoWriter.Some? {
              writerCalls := writerCalls + [Wrote(videoWriter.value, img)];
            }
        }
      }
    }

    /**
     * `update_stream` as its comment describes it: every fetched frame
     * becomes the texture, and is written while recording with a writer open.
     */
    method UpdateStreamIntended(fetched: Option<Frame>)
      modifies this
      ensures fetched.None? ==> unchanged(this)
      ensures fetched.Some? ==>
        && texture == Some(SizeOf(fetched.value))
        && writerCalls == old(writerCalls)
             + (if recording && videoWriter.Some? then [Wrote(videoWriter.value, fetched.value)] else [])
      ensures recording == old(recording) && videoWriter == old(videoWriter) && frameRate == old(frameRate)
      ensures frameRateLabel == old(frameRateLabel) && timers == old(timers)
      ensures startDisabled == old(startDisabled) && stopDisabled == old(stopDisabled)
      ensures old(Valid()) ==> Valid()
    {
      match fetched {
        case None =>
        case Some(img) =>
          texture := Some(SizeOf(img));
          if recording && videoWriter.Some? {
            writerCalls := writerCalls + [Wrote(videoWriter.value, img)];
          }
      }
    }

    /**
     * `start_recording`: refused, changing nothing, while there is no
     * texture; otherwise recording, Start disabled, Stop enabled, and an XVID
     * writer named after `now`, at the current rate and the texture's size.
     */
    method StartRecording(now: Timestamp)
      requires Valid() && ValidTimestamp(now)
      modifies this
      ensures Valid()
      ensures old(texture).None? ==> unchanged(this)
      ensures old(texture).Some? ==>
        && recording && startDisabled && !stopDisabled
        && videoWriter == Some(VideoWriter(RecordingFilename(now), "XVID", frameRate, old(texture).value))
      ensures frameRate == old(frameRate) && frameRateLabel == old(frameRateLabel) && timers == old(timers)
      ensures texture == old(texture) && writerCalls == old(writerCalls)
      ensures old(Dormant()) ==> Dormant()
    {
      if texture.None? {
        return;
      }
      recording := true;
      startDisabled := true;
      stopDisabled := false;
      var filename := RecordingFilename(now);
      var frameSize := texture.value;
      videoWriter := Some(VideoWriter(filename, "XVID", frameRate, frameSize));
    }

    /**
     * `stop_recording`, from any state: not recording, Start enabled, Stop
     * disabled, no writer; `release` is called exactly when a writer was open.
     */
    method StopRecording()
      requires Valid()
      modifies this
      ensures Valid()
      ensures !recording && !startDisabled && stopDisabled && videoWriter == None
      ensures writerCalls == old(writerCalls) + (if old(videoWriter).Some? then [Released(old(videoWriter).value)] else [])
      ensures frameRate == old(frameRate) && frameRateLabel == old(frameRateLabel) && timers == old(timers)
      ensures texture == old(texture)
      ensures old(Dormant()) ==> Dormant()
    {
      recording := false;
      startDisabled := false;
      stopDisabled := true;
      if videoWriter.Some? {
        writerCalls := writerCalls + [Released(videoWriter.value)];
        videoWriter := None;
      }
    }

    /**
     * `update_frame_rate` with a slider value in 1..60: the rate becomes
     * `int(value)`, the label shows it, and the poll event is cancelled and
     * rescheduled, so exactly one runs, at the new rate.
     */
    method UpdateFrameRate(value: real)
      requires Valid() && MinFrameRate as real <= value <= MaxFrameRate as real
      modifies this
      ensures Valid()
      ensures frameRate == value.Floor && MinFrameRate <= frameRate <= MaxFrameRate
      ensures frameRateLabel == "Frame Rate: " + NatToString(frameRate)
      ensures timers == ScheduleInterval(Unschedule(old(timers), Callback.UpdateStream), Callback.UpdateStream, frameRate)
      ensures Count(timers, Callback.UpdateStream) == 1
      ensures forall t :: t in timers && t.callback == Callback.UpdateStream ==> t.rate == frameRate
      ensures recording == old(recording) && videoWriter == old(videoWriter) && texture == old(texture)
      ensures startDisabled == old(startDisabled) && stopDisabled == old(stopDisabled)
      ensures writerCalls == old(writerCalls)
      ensures old(Dormant()) ==> Dormant()
    {
      frameRate := value.Floor;
      frameRateLabel := RateLabel(frameRate);
      timers := Unschedule(timers, Callback.UpdateStream);
      timers := ScheduleInterval(timers, Callback.UpdateStream, frameRate);
    }
  }

  /** An input to the running app: a button press, a slider move, or a poll with its fetch outcome. */
  datatype Event =
    | PressStart(now: Timestamp)
    | PressStop
    | Slide(value: real)
    | Tick(fetched: Option<Frame>)

  predicate ValidEvent(e: Event)
  {
    match e
    case PressStart(now) => ValidTimestamp(now)
    case Slide(value) => MinFrameRate as real <= value <= MaxFrameRate as real
    case _ => true
  }

  /**
   * Runs any sequence of events on a freshly built app, as written, and
   * reports whether it was ever recording: it never is, because the texture
   * that `start_recording` needs is only set while already recording.
   */
  method RunAsWritten(events: seq<Event>) returns (everRecorded: bool, writesMade: nat)
    requires forall i :: 0 <= i < |events| ==> ValidEvent(events[i])
    ensures !everRecorded && writesMade == 0
  {
    var app := new Esp32CamApp.Build();
    everRecorded := false;
    for i := 0 to |events|
      invariant app.Valid() && app.Dormant() && app.writerCalls == []
      invariant !everRecorded
    {
      match events[i] {
        case PressStart(now) => app.StartRecording(now);
        case PressStop => app.StopRecording();
        case Slide(value) => app.UpdateFrameRate(value);
        case Tick(fetched) => app.UpdateStream(fetched);
      }
      everRecorded := everRecorded || app.recording;
    }
    writesMade := |app.writerCalls|;
  }

  /**
   * With the intended `update_stream`, one successful poll and a press of
   * Start Recording are enough: the app records, into a writer sized like
   * the frame, at 30 frames per second, named after the press time.
   */
  method RunIntended(frame: Frame, now: Timestamp) returns (recording: bool, writer: Option<VideoWriter>)
    requires ValidTimestamp(now)
    ensures recording
    ensures writer == Some(VideoWriter(RecordingFilename(now), "XVID", InitialFrameRate, SizeOf(frame)))
  {
    var app := new Esp32CamApp.Build();
    app.UpdateStreamIntended(Some(frame));
    app.StartRecording(now);
    recording := app.recording;
    writer := app.videoWriter;
  }
}
