/**
 * The SSD viewer (pr_2.py): Start/Stop buttons drive a 60-per-second update
 * event; class names come from a newline-separated file; when the detector
 * reports class id 1 (person), a box and a label are drawn and the
 * horizontal error between the frame centre and the box centre is computed.
 */
module TrackerApp {
  import opened Wrappers
  import opened Clock
  import opened Drawing
  import opened Streaming

  const Newline := '\n'
  const PersonClassId := 1
  const Green := Color(0, 255, 0)

  // ---------------------------------------------------------------------
  // Class names: the names file with trailing newlines stripped, split at newlines
  // ---------------------------------------------------------------------

  /** Python's `s.rstrip(c)` for one character: drops every trailing `c`. */
  function RStrip(s: string, c: char): (r: string)
    ensures |r| <= |s| && r == s[..|r|]
    ensures r == [] || r[|r| - 1] != c
    ensures forall i :: |r| <= i < |s| ==> s[i] == c
  {
    if s == [] || s[|s| - 1] != c then s else RStrip(s[..|s| - 1], c)
  }

  /** Python's `s.split(sep)` with an explicit one-character separator. */
  function Split(s: string, sep: char): (parts: seq<string>)
    ensures |parts| >= 1
    ensures forall i :: 0 <= i < |parts| ==> sep !in parts[i]
    ensures s == [] ==> parts == [[]]
    ensures s != [] && s[|s| - 1] != sep ==> parts[|parts| - 1] != []
  {
    if s == [] then [[]]
    else
      var prev := Split(s[..|s| - 1], sep);
      if s[|s| - 1] == sep then prev + [[]]
      else prev[..|prev| - 1] + [prev[|prev| - 1] + [s[|s| - 1]]]
  }

  /** Python's `str.join` with a one-character separator. */
  function Join(parts: seq<string>, sep: char): string
    requires |parts| >= 1
  {
    if |parts| == 1 then parts[0]
    else Join(parts[..|parts| - 1], sep) + [sep] + parts[|parts| - 1]
  }

  /** Joining what `split` returns restores the text. */
  lemma {:induction false} JoinSplit(s: string, sep: char)
    ensures Join(Split(s, sep), sep) == s
  {
    if s != [] {
      var init := s[..|s| - 1];
      var prev := Split(init, sep);
      JoinSplit(init, sep);
      var parts := Split(s, sep);
      if s[|s| - 1] == sep {
        assert parts[..|parts| - 1] == prev;
      } else {
        var last := prev[|prev| - 1];
        assert parts[..|parts| - 1] == prev[..|prev| - 1];
        if |prev| == 1 {
          assert Join(prev, sep) == last;
        } else {
          assert Join(prev, sep) == Join(prev[..|prev| - 1], sep) + [sep] + last;
        }
      }
    }
  }

  /** A text with no separator splits into itself alone. */
  lemma {:induction false} SplitNoSep(b: string, sep: char)
    requires sep !in b
    ensures Split(b, sep) == [b]
  {
    if b != [] {
      SplitNoSep(b[..|b| - 1], sep);
      assert b[..|b| - 1] + [b[|b| - 1]] == b;
    }
  }

  /** Splitting `a + sep + b`, with no separator in `b`, ends in `b`. */
  lemma {:induction false} SplitSepTail(a: string, b: string, sep: char)
    requires sep !in b
    ensures Split(a + [sep] + b, sep) == Split(a, sep) + [b]
  {
    var s := a + [sep] + b;
    if b == [] {
      assert s[..|s| - 1] == a;
    } else {
      var b' := b[..|b| - 1];
      assert s[..|s| - 1] == a + [sep] + b';
      SplitSepTail(a, b', sep);
      assert b' + [b[|b| - 1]] == b;
    }
  }

  /** Splitting what `join` returns restores the parts, when no part holds the separator. */
  lemma {:induction false} SplitJoin(parts: seq<string>, sep: char)
    requires |parts| >= 1
    requires forall i :: 0 <= i < |parts| ==> sep !in parts[i]
    ensures Split(Join(parts, sep), sep) == parts
  {
    if |parts| == 1 {
      SplitNoSep(parts[0], sep);
    } else {
      var init := parts[..|parts| - 1];
      SplitJoin(init, sep);
      SplitSepTail(Join(init, sep), parts[|parts| - 1], sep);
      assert init + [parts[|parts| - 1]] == parts;
    }
  }

  /**
   * The class-name list read from the names file: never empty, no name holds
   * a newline, joining the names with newlines gives the text without its
   * trailing newlines, an empty file gives one empty name, and only a
   * one-name list can end in an empty name.
   */
  function ParseClassNames(text: string): (names: seq<string>)
    ensures |names| >= 1
    ensures forall i :: 0 <= i < |names| ==> Newline !in names[i]
    ensures Join(names, Newline) == RStrip(text, Newline)
    ensures text == [] ==> names == [[]]
    ensures |names| > 1 ==> names[|names| - 1] != []
  {
    var stripped := RStrip(text, Newline);
    JoinSplit(stripped, Newline);
    Split(stripped, Newline)
  }

  // ---------------------------------------------------------------------
  // Label lookup: self.classNames[classId - 1]
  // ---------------------------------------------------------------------

  /** Python list indexing: negative indices count from the end; out of range is an IndexError (None). */
  function PyIndex<T>(s: seq<T>, k: int): (r: Option<T>)
    ensures r.Some? <==> -|s| <= k < |s|
    ensures 0 <= k < |s| ==> r == Some(s[k])
    ensures -|s| <= k < 0 ==> r == Some(s[|s| + k])
  {
    if 0 <= k < |s| then Some(s[k])
    else if -|s| <= k < 0 then Some(s[|s| + k])
    else None
  }

  /**
   * The label shown for a class id: ids are 1-based, so id `k` names
   * `names[k - 1]`; id 0 wraps round to the last name, and ids outside
   * `1 - |names| .. |names|` raise an IndexError.
   */
  function ClassLabel(names: seq<string>, classId: int): (r: Option<string>)
    ensures 1 <= classId <= |names| ==> r == Some(names[classId - 1])
    ensures classId == 0 && |names| > 0 ==> r == Some(names[|names| - 1])
    ensures r.None? <==> classId > |names| || classId < 1 - |names|
  {
    PyIndex(names, classId - 1)
  }

  // ---------------------------------------------------------------------
  // The person branch of update_image
  // ---------------------------------------------------------------------

  /** Python's `list.index`: the first position holding `id`; None stands for its ValueError. */
  function FirstIndex(ids: seq<int>, id: int): (r: Option<nat>)
    ensures r.None? <==> id !in ids
    ensures r.Some? ==> r.value < |ids| && ids[r.value] == id
    ensures r.Some? ==> forall j :: 0 <= j < r.value ==> ids[j] != id
  {
    if ids == [] then None
    else if ids[0] == id then Some(0)
    else
      match FirstIndex(ids[1..], id)
      case None => None
      case Some(k) => Some(k + 1)
  }

  /** The frame's horizontal centre: half its width, rounded down. */
  function FrameCenterX(width: nat): int
  {
    width / 2
  }

  /** The box's horizontal centre: its left edge plus half its width, rounded down (Python's `//` floors, as `/` by 2 does here). */
  function BoxCenterX(b: Box): int
  {
    b.x + b.w / 2
  }

  /**
   * The horizontal error, frame centre minus box centre: zero exactly when the centres
   * coincide, negative exactly when the box centre lies right of the frame
   * centre, and for a box inside the frame within `[width/2 - width, width/2]`.
   */
  function ErrorX(width: nat, b: Box): (e: int)
    ensures e == 0 <==> BoxCenterX(b) == FrameCenterX(width)
    ensures e < 0 <==> BoxCenterX(b) > FrameCenterX(width)
    ensures 0 <= b.x && 0 <= b.w && b.x + b.w <= width ==>
      FrameCenterX(width) - width <= e <= FrameCenterX(width)
  {
    FrameCenterX(width) - BoxCenterX(b)
  }

  /** The outcome of one person branch. */
  datatype Annotation =
    | NoPerson
    | Tracked(ops: seq<DrawOp>, errorX: int)
    | LabelIndexError

  /** The rectangle and label drawn around a box for a class id, or the IndexError of the lookup. */
  function TrackBox(names: seq<string>, classId: int, b: Box, width: nat): (r: Annotation)
    ensures r.NoPerson? == false
    ensures r.LabelIndexError? <==> ClassLabel(names, classId).None?
    ensures r.Tracked? ==>
      && |r.ops| == 2 && r.ops[0] == BoxOutline(b, Green, 3)
      && r.ops[1].PutText? && r.ops[1].origin == Point(b.x + 10, b.y + 30)
      && r.errorX == ErrorX(width, b)
  {
    match ClassLabel(names, classId)
    case None => LabelIndexError
    case Some(name) =>
      Tracked([BoxOutline(b, Green, 3),
               PutText(Literal(name), Point(b.x + 10, b.y + 30), HersheyComplex, 1.0, Green, 2)],
              ErrorX(width, b))
  }

  /**
   * The person branch as written: the loop zips the one-element class id
   * and confidence of detection `d` with the whole box list, so it runs once
   * and the box it draws and measures is `bbox[0]`, whichever detection `d`
   * is the person.
   */
  function TrackPersonAsWritten(ids: seq<int>, bbox: seq<Box>, names: seq<string>, width: nat): (r: Annotation)
    requires |bbox| == |ids|
    ensures r.NoPerson? <==> PersonClassId !in ids
    ensures r.LabelIndexError? <==> PersonClassId in ids && names == []
    ensures r.Tracked? ==>
      && |r.ops| == 2
      && r.ops[0] == BoxOutline(bbox[0], Green, 3)
      && r.ops[1] == PutText(Literal(names[0]), Point(bbox[0].x + 10, bbox[0].y + 30), HersheyComplex, 1.0, Green, 2)
      && r.errorX == ErrorX(width, bbox[0])
  {
    match FirstIndex(ids, PersonClassId)
    case None => NoPerson
    case Some(d) => TrackBox(names, ids[d], bbox[0], width)
  }

  /**
   * Whenever the first person detection is not the first detection, the
   * as-written branch outlines and measures `bbox[0]` while the intended one
   * outlines `bbox[d]`, `d > 0`.
   */
  lemma AsWrittenIgnoresPersonIndex(ids: seq<int>, bbox: seq<Box>, names: seq<string>, width: nat)
    requires |bbox| == |ids| && names != []
    requires PersonClassId in ids && ids[0] != PersonClassId
    ensures var asWritten := TrackPersonAsWritten(ids, bbox, names, width);
      var intended := TrackPerson(ids, bbox, names, width);
      var d := FirstIndex(ids, PersonClassId).value;
      && 0 < d < |ids|
      && asWritten.Tracked? && intended.Tracked?
      && asWritten.ops[0] == BoxOutline(bbox[0], Green, 3) && asWritten.errorX == ErrorX(width, bbox[0])
      && intended.ops[0] == BoxOutline(bbox[d], Green, 3) && intended.errorX == ErrorX(width, bbox[d])
  {
  }

  /**
   * With the person second (`classIds == [3, 1]`), the as-written branch
   * outlines the first detection's box and reports an error of +300, while
   * the intended branch outlines the person's box, whose centre lies 300
   * pixels right of the frame centre, and reports -300.
   */
  lemma AsWrittenMeasuresWrongBox()
    ensures var ids := [3, 1];
      var bbox := [Box(0, 0, 40, 40), Box(600, 100, 40, 80)];
      var asWritten := TrackPersonAsWritten(ids, bbox, ["person"], 640);
      var intended := TrackPerson(ids, bbox, ["person"], 640);
      && asWritten.Tracked? && asWritten.ops[0] == BoxOutline(bbox[0], Green, 3) && asWritten.errorX == 300
      && intended.Tracked? && intended.ops[0] == BoxOutline(bbox[1], Green, 3) && intended.errorX == -300
  {
    var ids := [3, 1];
    var bbox := [Box(0, 0, 40, 40), Box(600, 100, 40, 80)];
    assert ids[1] == PersonClassId;
    assert ids[1..] == [1];
    AsWrittenIgnoresPersonIndex(ids, bbox, ["person"], 640);
  }

  /**
   * The person branch as intended: the box of the first person detection
   * `d` is outlined, labelled with class id 1's name, and measured.
   */
  function TrackPerson(ids: seq<int>, bbox: seq<Box>, names: seq<string>, width: nat): (r: Annotation)
    requires |bbox| == |ids|
    ensures r.NoPerson? <==> PersonClassId !in ids
    ensures r.LabelIndexError? <==> PersonClassId in ids && names == []
    ensures r.Tracked? ==> |r.ops| == 2 && exists d ::
      && 0 <= d < |ids| && ids[d] == PersonClassId
      && (forall j :: 0 <= j < d ==> ids[j] != PersonClassId)
      && r.ops[0] == BoxOutline(bbox[d], Green, 3)
      && r.ops[1] == PutText(Literal(names[0]), Point(bbox[d].x + 10, bbox[d].y + 30), HersheyComplex, 1.0, Green, 2)
      && r.errorX == ErrorX(width, bbox[d])
  {
    match FirstIndex(ids, PersonClassId)
    case None => NoPerson
    case Some(d) => TrackBox(names, ids[d], bbox[d], width)
  }

  /** With names read from any file, the person branch never fails its label lookup. */
  lemma ParsedNamesNeverFailLookup(text: string, ids: seq<int>, bbox: seq<Box>, width: nat)
    requires |bbox| == |ids|
    ensures !TrackPerson(ids, bbox, ParseClassNames(text), width).LabelIndexError?
  {
  }

  class Esp32CamApp {
    const controls: StreamControls
    const classNames: seq<string>

    ghost predicate Valid()
      reads this, controls
    {
      controls.Valid() && controls.callback == Callback.UpdateImage && controls.rate == 60
    }

    /** `build`: names read from the class file, idle, Start enabled, Stop disabled. */
    constructor Build(classFileText: string)
      ensures Valid() && fresh(controls)
      ensures classNames == ParseClassNames(classFileText)
      ensures !controls.isStreaming && !controls.startDisabled && controls.stopDisabled
      ensures controls.timers == []
    {
      classNames := ParseClassNames(classFileText);
      controls := new StreamControls(Callback.UpdateImage, 60);
    }

    /** `start_streaming`: from idle, streaming with one update event at 60 per second; otherwise a no-op. */
    method StartStreaming()
      requires Valid()
      modifies controls
      ensures Valid()
      ensures controls.isStreaming && controls.startDisabled && !controls.stopDisabled
      ensures Count(controls.timers, Callback.UpdateImage) == 1 && Timer(Callback.UpdateImage, 60) in controls.timers
      ensures old(controls.isStreaming) ==> unchanged(controls)
    {
      controls.StartStreaming();
    }

    /** `stop_streaming`: from streaming, idle with the update event cancelled; otherwise a no-op. */
    method StopStreaming()
      requires Valid()
      modifies controls
      ensures Valid()
      ensures !controls.isStreaming && !controls.startDisabled && controls.stopDisabled
      ensures Count(controls.timers, Callback.UpdateImage) == 0
      ensures !old(controls.isStreaming) ==> unchanged(controls)
    {
      controls.StopStreaming();
    }
  }
}
