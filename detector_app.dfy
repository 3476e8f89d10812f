/**
 * The imageai viewer (main.py): Start/Stop buttons drive a 30-per-second
 * update event; each update grabs one frame, draws a box and a label per
 * detection plus a person/no-person summary, and blits the result into the
 * image widget's texture.
 */
module DetectorApp {
  import opened Wrappers
  import opened Clock
  import opened Drawing
  import opened Streaming

  /** One imageai detection: class name, percentage probability and the two box corners as integers. */
  datatype Detection = Detection(name: string, probability: real, x1: int, y1: int, x2: int, y2: int)

  /** What `cv2.VideoCapture(url)` and `cap.read()` yield for one update. */
  datatype Capture = NotOpened | ReadFailed | Grabbed(frame: Frame)

  /** The annotated frame last blitted into the texture. */
  datatype Shown = Shown(frame: Frame, ops: seq<DrawOp>)

  const Green := Color(0, 255, 0)
  const NoPersonColor := Color(0, 0, 255)
  const SummaryOrigin := Point(10, 30)

  /** The rectangle drawn for one detection. */
  function BoxOp(d: Detection): DrawOp
  {
    Rectangle(Point(d.x1, d.y1), Point(d.x2, d.y2), Green, 2)
  }

  /** The label drawn for one detection, 10 pixels above its top-left corner. */
  function LabelOp(d: Detection): DrawOp
  {
    PutText(Scored(d.name, d.probability), Point(d.x1, d.y1 - 10), HersheySimplex, 0.5, Green, 2)
  }

  /** The commands the per-detection loop draws, in detection order. */
  function DetectionOps(ds: seq<Detection>): seq<DrawOp>
  {
    if ds == [] then []
    else DetectionOps(ds[..|ds| - 1]) + [BoxOp(ds[|ds| - 1]), LabelOp(ds[|ds| - 1])]
  }

  /** Each detection contributes, in order, its rectangle and then its label. */
  lemma {:induction false} DetectionOpsShape(ds: seq<Detection>)
    ensures |DetectionOps(ds)| == 2 * |ds|
    ensures forall i :: 0 <= i < |ds| ==>
      DetectionOps(ds)[2 * i] == BoxOp(ds[i]) && DetectionOps(ds)[2 * i + 1] == LabelOp(ds[i])
    ensures CountRectangles(DetectionOps(ds)) == |ds|
    ensures forall op :: op in DetectionOps(ds) ==> !(op.PutText? && op.caption.Literal?)
  {
    if ds != [] {
      var init := ds[..|ds| - 1];
      DetectionOpsShape(init);
      var ops := DetectionOps(ds);
      assert ops == DetectionOps(init) + [BoxOp(ds[|ds| - 1]), LabelOp(ds[|ds| - 1])];
      assert ops[..|ops| - 1] == DetectionOps(init) + [BoxOp(ds[|ds| - 1])];
      assert ops[..|ops| - 1][..|ops| - 2] == DetectionOps(init);
    }
  }

  /** The drawing loop of `update_image`, appending to the frame's commands. */
  method DrawDetections(ds: seq<Detection>) returns (ops: seq<DrawOp>)
    ensures ops == DetectionOps(ds)
  {
    ops := [];
    for i := 0 to |ds|
      invariant ops == DetectionOps(ds[..i])
    {
      assert ds[..i + 1][..i] == ds[..i];
      ops := ops + [BoxOp(ds[i]), LabelOp(ds[i])];
    }
    assert ds[..|ds|] == ds;
  }

  /** Whether some detection's class name is exactly "person". */
  function PersonDetected(ds: seq<Detection>): (r: bool)
    ensures r <==> exists i :: 0 <= i < |ds| && ds[i].name == "person"
  {
    if ds == [] then false
    else
      assert forall i :: 1 <= i < |ds| ==> ds[i] == ds[1..][i - 1];
      ds[0].name == "person" || PersonDetected(ds[1..])
  }

  /** The one summary text of a frame: green "Person detected" or blue "No person detected", at (10, 30). */
  function SummaryOp(personDetected: bool): DrawOp
  {
    if personDetected then PutText(Literal("Person detected"), SummaryOrigin, HersheySimplex, 1.0, Green, 2)
    else PutText(Literal("No person detected"), SummaryOrigin, HersheySimplex, 1.0, NoPersonColor, 2)
  }

  /** Everything drawn on one grabbed frame. */
  function FrameOps(ds: seq<Detection>): seq<DrawOp>
  {
    DetectionOps(ds) + [SummaryOp(PersonDetected(ds))]
  }

  /**
   * A frame carries 2 * |ds| + 1 commands: one rectangle per detection, and
   * exactly one summary text, last, at (10, 30): "Person detected" in green
   * precisely when some detection is named "person", and otherwise
   * "No person detected" in (0, 0, 255).
   */
  lemma FrameAnnotation(ds: seq<Detection>)
    ensures var ops := FrameOps(ds);
      && |ops| == 2 * |ds| + 1
      && CountRectangles(ops) == |ds|
      && (forall i :: 0 <= i < |ops| - 1 ==> !(ops[i].PutText? && ops[i].caption.Literal?))
      && ops[|ops| - 1].PutText? && ops[|ops| - 1].origin == SummaryOrigin
      && (ops[|ops| - 1].caption == Literal("Person detected")
          <==> exists i :: 0 <= i < |ds| && ds[i].name == "person")
      && (ops[|ops| - 1].color == Green <==> exists i :: 0 <= i < |ds| && ds[i].name == "person")
      && ops[|ops| - 1] ==
           if exists i :: 0 <= i < |ds| && ds[i].name == "person"
           then PutText(Literal("Person detected"), SummaryOrigin, HersheySimplex, 1.0, Green, 2)
           else PutText(Literal("No person detected"), SummaryOrigin, HersheySimplex, 1.0, NoPersonColor, 2)
  {
    DetectionOpsShape(ds);
    var ops := FrameOps(ds);
    assert ops[..|ops| - 1] == DetectionOps(ds);
    assert forall i :: 0 <= i < |ops| - 1 ==> ops[i] in DetectionOps(ds);
  }

  class Esp32CamApp {
    const controls: StreamControls
    /** The image widget's texture, known by its size. */
    var texture: Option<Size>
    var shown: Option<Shown>
    /** Number of `cap.release()` calls so far. */
    var captureReleases: nat

    ghost predicate Valid()
      reads this, controls
    {
      controls.Valid() && controls.callback == Callback.UpdateImage && controls.rate == 30
    }

    /** `build`: idle, Start enabled, Stop disabled, no texture yet. */
    constructor Build()
      ensures Valid() && fresh(controls)
      ensures !controls.isStreaming && !controls.startDisabled && controls.stopDisabled
      ensures controls.timers == []
      ensures texture == None && shown == None && captureReleases == 0
    {
      controls := new StreamControls(Callback.UpdateImage, 30);
      texture := None;
      shown := None;
      captureReleases := 0;
    }

    /** `start_streaming`: from idle, streaming with one update event at 30 per second; otherwise a no-op. */
    method StartStreaming()
      requires Valid()
      modifies controls
      ensures Valid()
      ensures controls.isStreaming && controls.startDisabled && !controls.stopDisabled
      ensures Count(controls.timers, Callback.UpdateImage) == 1 && Timer(Callback.UpdateImage, 30) in controls.timers
      ensures old(controls.isStreaming) ==> unchanged(controls)
    {
      controls.StartStreaming();
    }

    /** `stop_streaming`: from streaming, idle with the update event cancelled; otherwise a no-op. */
    method StopStreaming()
      requires Valid()
      modifies controls
      ensures Valid()
      ensures !controls.isStreaming && !controls.startDisabled && controls.stopDisabled
      ensures Count(controls.timers, Callback.UpdateImage) == 0
      ensures !old(controls.isStreaming) ==> unchanged(controls)
    {
      controls.StopStreaming();
    }

    /**
     * `update_image`, with the capture's outcome and the detector's output as
     * inputs. A capture that does not open leaves everything untouched; a
     * failed read releases the capture and draws nothing; a grabbed frame is
     * annotated, creates the texture if there is none (sized to the frame),
     * is blitted into it and the capture is released.
     */
    method UpdateImage(capture: Capture, detections: seq<Detection>) returns (ops: seq<DrawOp>)
      modifies this
      ensures capture.NotOpened? ==> unchanged(this) && ops == []
      ensures capture.ReadFailed? ==>
        && ops == [] && captureReleases == old(captureReleases) + 1
        && texture == old(texture) && shown == old(shown)
      ensures capture.Grabbed? ==>
        && ops == FrameOps(detections)
        && captureReleases == old(captureReleases) + 1
        && texture == (if old(texture).None? then Some(SizeOf(capture.frame)) else old(texture))
        && shown == Some(Shown(capture.frame, ops))
    {
      ops := [];
      match capture {
        case NotOpened =>
          return;
        case ReadFailed =>
          captureReleases := captureReleases + 1;
          return;
        case Grabbed(frame) =>
          ops := DrawDetections(detections);
          ops := ops + [SummaryOp(PersonDetected(detections))];
          if texture.None? {
            texture := Some(SizeOf(frame));
          }
          shown := Some(Shown(frame, ops));
          captureReleases := captureReleases + 1;
      }
    }
  }
}
