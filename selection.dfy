/** A value model of the interactive point selectors of pyorc's command line
    (BaseSelect and its subclasses AoiSelect and GcpSelect). A Session holds
    every field the event handlers read or write once the rendering has been
    stripped away; each handler is a function from the old session to the new
    one. Positions arrive already rounded to integer pixels. */
module Selection {

  datatype Option<+T> = None | Some(value: T)

  /** The mouse buttons as the handlers tell them apart. */
  datatype Button = Left | Right | Other

  /** An image pixel [col, row]. */
  datatype Pixel = Pixel(col: int, row: int)

  /** A real-world destination point (x, y[, z]) supplied by the caller. */
  datatype GroundPoint = GroundPoint(x: real, y: real, z: Option<real>)

  /** A mouse event as on_click sees it: the button, whether the pointer was
      over the image axes, and the data position (None when the pointer lay
      outside every data area). */
  datatype MouseEvent = MouseEvent(button: Button, inImageAxes: bool, pos: Option<Pixel>)

  /** Which subclass the session belongs to. */
  datatype Kind = AoiMode | GcpMode

  /** The text of the annotation placed next to a selected point. */
  datatype Label = Number(n: nat) | Corner(name: string)

  /** A polygon patch: empty, or the bounding box the camera configuration
      derives from the given corners (in camera or in map coordinates). */
  datatype Outline = NoOutline | FromCorners(corners: seq<Pixel>)

  /** The usage error raised when the window closes with too few points. */
  datatype UsageError = NotAllSupplied(required: nat, supplied: nat)

  datatype Outcome = Pass | Fail(error: UsageError)

  /** The corner order of an area of interest, as seen looking downstream. */
  const CornerLabels: seq<string> :=
    ["upstream-left", "downstream-left", "downstream-right", "upstream-right"]

  /** AoiSelect's required_clicks. */
  const AoiCorners: nat := 4

  /** Everything the handlers keep apart from the gesture flags.
      src, ptsT: the selected pixels and their annotations, in click order;
      required: required_clicks;
      doneActive: whether the "Done" button reacts;
      axVisible, axGeoVisible: visibility of the image and the map axes;
      bboxCam, bboxGeo, configCorners: (area of interest) the two polygon
        patches and the corners last handed to set_bbox_from_corners;
      dstSelected: (control points) the destination points highlighted on the map. */
  datatype Picker = Picker(
    kind: Kind,
    dst: seq<GroundPoint>,
    required: nat,
    src: seq<Pixel>,
    ptsT: seq<Label>,
    doneActive: bool,
    axVisible: bool,
    axGeoVisible: bool,
    bboxCam: Outline,
    bboxGeo: Outline,
    configCorners: Option<seq<Pixel>>,
    dstSelected: seq<GroundPoint>)

  /** The flags that tell a click from a drag: a button is down, and the
      pointer moved since it went down. */
  datatype Gesture = Gesture(press: bool, move: bool)

  /** The state of one selector session. */
  datatype Session = Session(gesture: Gesture, picker: Picker)

  function Last<T>(xs: seq<T>): (x: T)
    requires xs != []
  {
    xs[|xs| - 1]
  }

  /** Python's slice xs[:n], which stops at the end of xs. */
  function Prefix<T>(xs: seq<T>, n: nat): (r: seq<T>)
    ensures |r| == if n <= |xs| then n else |xs|
    ensures r <= xs
  {
    if n <= |xs| then xs[..n] else xs
  }

  /** The annotation of the (k+1)-th selected point: its number, or in an
      area-of-interest session the name of the k-th corner. */
  function LabelAt(kind: Kind, k: nat): (l: Label)
    requires kind == AoiMode ==> k < |CornerLabels|
  {
    if kind == AoiMode then Corner(CornerLabels[k]) else Number(k + 1)
  }

  /** The parts fixed at construction. */
  predicate SameSetup(r: Picker, s: Picker)
  {
    r.kind == s.kind && r.dst == s.dst && r.required == s.required
  }

  /** The shape every handler keeps: the cap on src, the annotations in
      lock-step with src, and each annotation the one its position calls for. */
  predicate WellFormed(s: Picker)
  {
    && s.required == (if s.kind == AoiMode then AoiCorners else |s.dst|)
    && |s.src| <= s.required
    && |s.ptsT| == |s.src|
    && (forall k :: 0 <= k < |s.ptsT| ==> s.ptsT[k] == LabelAt(s.kind, k))
  }

  /** What holds of the picker between two events. */
  predicate Ready(s: Picker)
  {
    && WellFormed(s)
    && |s.dst| > 0
    && s.axVisible != s.axGeoVisible
    && (s.doneActive <==> |s.src| == s.required)
    && BboxTracksCorners(s)
    && s.dstSelected == (if s.kind == GcpMode then s.dst[..|s.src|] else [])
  }

  /** The bounding box is shown exactly while all four corners are placed, and
      then it is the one derived from those corners; a control-point session
      never touches it. */
  predicate BboxTracksCorners(s: Picker)
  {
    if s.kind == AoiMode && |s.src| == AoiCorners then
      && s.bboxCam == FromCorners(s.src)
      && s.bboxGeo == FromCorners(s.src)
      && s.configCorners == Some(s.src)
    else
      && s.bboxCam == NoOutline
      && s.bboxGeo == NoOutline
      && (s.kind == GcpMode ==> s.configCorners == None)
  }

  /** What holds of a whole session between two events: motion is recorded
      only while a button is down. */
  predicate Consistent(s: Session)
  {
    (s.gesture.move ==> s.gesture.press) && Ready(s.picker)
  }

  /** A fresh AoiSelect or GcpSelect: nothing selected, the image axes showing,
      "Done" inactive, no button down. */
  function Initial(kind: Kind, dst: seq<GroundPoint>): (s: Session)
    requires |dst| > 0
    ensures Consistent(s)
    ensures s.picker.kind == kind && s.picker.dst == dst
    ensures s.picker.required == (if kind == AoiMode then 4 else |dst|)
    ensures s.picker.src == [] && s.picker.ptsT == [] && !s.picker.doneActive
    ensures s.picker.axVisible && !s.picker.axGeoVisible
    ensures !s.gesture.press && !s.gesture.move
  {
    Session(
      Gesture(false, false),
      Picker(kind, dst, if kind == AoiMode then AoiCorners else |dst|,
             [], [], false, true, false, NoOutline, NoOutline, None, []))
  }

  /** on_press: a button went down; no motion seen yet. */
  function Press(s: Session): (r: Session)
    ensures r.gesture.press && !r.gesture.move
    ensures r.picker == s.picker
  {
    s.(gesture := Gesture(true, false))
  }

  /** on_move: motion counts as a drag only while a button is down. */
  function Move(s: Session): (r: Session)
    ensures r.gesture.press == s.gesture.press
    ensures r.gesture.move == (s.gesture.move || s.gesture.press)
    ensures r.picker == s.picker
  {
    if s.gesture.press then s.(gesture := s.gesture.(move := true)) else s
  }

  /** on_release: a release after a press with no motion in between is a
      click; afterwards neither flag is set. */
  function Release(s: Session, e: MouseEvent): (r: Session)
    requires WellFormed(s.picker)
    ensures r.gesture == Gesture(false, false)
    ensures WellFormed(r.picker) && SameSetup(r.picker, s.picker)
    ensures s.gesture.press && !s.gesture.move ==> r.picker == Click(s.picker, e)
    ensures !(s.gesture.press && !s.gesture.move) ==> r.picker == s.picker
  {
    var clicked := s.gesture.press && !s.gesture.move;
    Session(Gesture(false, false), if clicked then Click(s.picker, e) else s.picker)
  }

  /** Whether a click adds a point: a left click inside the visible image axes,
      at a data position, while fewer than required points are placed. */
  predicate AddsPoint(s: Picker, e: MouseEvent)
  {
    s.axVisible && e.inImageAxes && e.button == Left && e.pos.Some? && |s.src| < s.required
  }

  /** Whether a click removes a point: a right click inside the visible image
      axes while some point is placed. */
  predicate RemovesPoint(s: Picker, e: MouseEvent)
  {
    s.axVisible && e.inImageAxes && e.button == Right && s.src != []
  }

  /** on_left_click (the base version and AoiSelect's override), which its
      caller only reaches below the cap: append the position and its label;
      in an area-of-interest session the fourth corner hands src to
      set_bbox_from_corners and shows the derived box in both views. */
  function LeftClick(s: Picker, e: MouseEvent): (r: Picker)
    requires WellFormed(s) && |s.src| < s.required
    ensures WellFormed(r) && SameSetup(r, s)
    ensures e.pos.None? ==> r == s
    ensures e.pos.Some? ==> |r.src| == |s.src| + 1 && r.src[..|s.src|] == s.src && Last(r.src) == e.pos.value
    ensures e.pos.Some? ==> r.ptsT[..|s.ptsT|] == s.ptsT
    ensures r.kind == AoiMode && |r.src| == AoiCorners && e.pos.Some? ==>
              r.configCorners == Some(r.src) && r.bboxCam == FromCorners(r.src) && r.bboxGeo == FromCorners(r.src)
    ensures !(r.kind == AoiMode && |r.src| == AoiCorners) ==>
              r.configCorners == s.configCorners && r.bboxCam == s.bboxCam && r.bboxGeo == s.bboxGeo
    ensures r.doneActive == s.doneActive && r.dstSelected == s.dstSelected
    ensures r.axVisible == s.axVisible && r.axGeoVisible == s.axGeoVisible
  {
    match e.pos
    case None => s
    case Some(p) => DeriveBbox(Append(s, p))
  }

  /** The point and its label appended, nothing else touched. */
  function Append(s: Picker, p: Pixel): (r: Picker)
    requires WellFormed(s) && |s.src| < s.required
    ensures WellFormed(r) && SameSetup(r, s)
    ensures r.src == s.src + [p] && r.ptsT == s.ptsT + [LabelAt(s.kind, |s.src|)]
    ensures r.(src := s.src, ptsT := s.ptsT) == s
  {
    var r := s.(src := s.src + [p], ptsT := s.ptsT + [LabelAt(s.kind, |s.src|)]);
    assert forall k :: 0 <= k < |r.ptsT| ==> r.ptsT[k] == LabelAt(r.kind, k) by {
      forall k | 0 <= k < |r.ptsT| ensures r.ptsT[k] == LabelAt(r.kind, k) {
        if k < |s.ptsT| { assert r.ptsT[k] == s.ptsT[k]; }
      }
    }
    r
  }

  /** AoiSelect's step after a corner is placed: once all four are there,
      they go to set_bbox_from_corners and the derived box is shown in the
      camera and in the map view. */
  function DeriveBbox(t: Picker): (r: Picker)
    ensures t.kind == AoiMode && |t.src| == t.required ==>
              r.configCorners == Some(t.src) && r.bboxCam == FromCorners(t.src) && r.bboxGeo == FromCorners(t.src)
    ensures !(t.kind == AoiMode && |t.src| == t.required) ==> r == t
    ensures r.(configCorners := t.configCorners, bboxCam := t.bboxCam, bboxGeo := t.bboxGeo) == t
  {
    if t.kind == AoiMode && |t.src| == t.required then
      t.(configCorners := Some(t.src), bboxCam := FromCorners(t.src), bboxGeo := FromCorners(t.src))
    else
      t
  }

  /** on_right_click: drop the last annotation and the last pixel, each if
      there is one. */
  function RightClick(s: Picker): (r: Picker)
    ensures s.src != [] ==> r.src + [Last(s.src)] == s.src
    ensures s.ptsT != [] ==> r.ptsT + [Last(s.ptsT)] == s.ptsT
    ensures s.src == [] ==> r.src == []
    ensures s.ptsT == [] ==> r.ptsT == []
    ensures r.(src := s.src, ptsT := s.ptsT) == s
    ensures WellFormed(s) ==> WellFormed(r)
  {
    var t := if |s.ptsT| > 0 then s.(ptsT := s.ptsT[..|s.ptsT| - 1]) else s;
    if |t.src| > 0 then t.(src := t.src[..|t.src| - 1]) else t
  }

  /** BaseSelect.on_click: only a click inside the visible image axes acts;
      it adds or removes a point and then sets "Done" active exactly when the
      selection is complete. */
  function BaseClick(s: Picker, e: MouseEvent): (r: Picker)
    requires WellFormed(s)
    ensures WellFormed(r) && SameSetup(r, s)
    ensures !(s.axVisible && e.inImageAxes) ==> r == s
    ensures s.axVisible && e.inImageAxes ==> (r.doneActive <==> |r.src| == r.required)
    ensures AddsPoint(s, e) ==> r.src == s.src + [e.pos.value]
    ensures RemovesPoint(s, e) ==> r.src + [Last(s.src)] == s.src
    ensures !AddsPoint(s, e) && !RemovesPoint(s, e) ==> r.src == s.src && r.ptsT == s.ptsT
    ensures r.configCorners != s.configCorners || r.bboxCam != s.bboxCam || r.bboxGeo != s.bboxGeo ==>
              AddsPoint(s, e) && r.kind == AoiMode && |r.src| == AoiCorners
    ensures r.dstSelected == s.dstSelected
    ensures r.axVisible == s.axVisible && r.axGeoVisible == s.axGeoVisible
  {
    if s.axVisible && e.inImageAxes then
      var t :=
        if e.button == Right then RightClick(s)
        else if e.button == Left && |s.src| < s.required then LeftClick(s, e)
        else s;
      t.(doneActive := |t.src| == t.required)
    else
      s
  }

  /** on_click of the two subclasses: after the base handler, an
      area-of-interest session clears both bounding-box patches unless all four
      corners are placed, and a control-point session highlights the
      destination points matched so far. */
  function Click(s: Picker, e: MouseEvent): (r: Picker)
    requires WellFormed(s)
    ensures WellFormed(r) && SameSetup(r, s)
    ensures r.src == BaseClick(s, e).src && r.ptsT == BaseClick(s, e).ptsT
    ensures r.doneActive == BaseClick(s, e).doneActive
    ensures r.kind == AoiMode && |r.src| != AoiCorners ==> r.bboxCam == NoOutline && r.bboxGeo == NoOutline
    ensures r.kind == GcpMode ==> r.dstSelected == r.dst[..|r.src|]
    ensures r.axVisible == s.axVisible && r.axGeoVisible == s.axGeoVisible
    ensures r.configCorners != s.configCorners ==> AddsPoint(s, e) && r.configCorners == Some(r.src)
    ensures Ready(s) ==> Ready(r)
  {
    var t := BaseClick(s, e);
    match s.kind
    case AoiMode =>
      if |t.src| != t.required then t.(bboxCam := NoOutline, bboxGeo := NoOutline) else t
    case GcpMode =>
      t.(dstSelected := Prefix(t.dst, |t.src|))
  }

  /** switch_to_ax: show the image axes, hide the map. */
  function ShowCamera(s: Picker): (r: Picker)
    ensures r.axVisible && !r.axGeoVisible
    ensures r.(axVisible := s.axVisible, axGeoVisible := s.axGeoVisible) == s
  {
    s.(axVisible := true, axGeoVisible := false)
  }

  /** switch_to_ax_geo: show the map, hide the image axes. */
  function ShowMap(s: Picker): (r: Picker)
    ensures !r.axVisible && r.axGeoVisible
    ensures r.(axVisible := s.axVisible, axGeoVisible := s.axGeoVisible) == s
  {
    s.(axVisible := false, axGeoVisible := true)
  }

  /** on_close: the session ends normally only with exactly required_clicks
      points; otherwise a usage error reports both counts. */
  function Close(s: Picker): (r: Outcome)
    ensures r.Pass? <==> |s.src| == s.required
    ensures r.Fail? ==> r.error.required == s.required && r.error.supplied == |s.src|
  {
    if |s.src| == s.required then Pass else Fail(NotAllSupplied(s.required, |s.src|))
  }

  /** A click on "Done": its callback close_window (which closes the figure and
      runs on_close) fires only while the button is active, so between events
      it never ends in a usage error. */
  function DoneClicked(s: Picker): (r: Option<Outcome>)
    ensures r.Some? <==> s.doneActive
    ensures Ready(s) ==> r == None || r == Some(Pass)
  {
    if s.doneActive then Some(Close(s)) else None
  }

  /** The events the figure delivers to a live session. */
  datatype UiEvent =
    | ButtonPress
    | Motion
    | ButtonRelease(e: MouseEvent)
    | CameraButton
    | MapButton

  /** One event, dispatched to the handler connected to it. */
  function Step(s: Session, ev: UiEvent): (r: Session)
    requires WellFormed(s.picker)
    ensures WellFormed(r.picker) && SameSetup(r.picker, s.picker)
  {
    match ev
    case ButtonPress => Press(s)
    case Motion => Move(s)
    case ButtonRelease(e) => Release(s, e)
    case CameraButton => s.(picker := ShowCamera(s.picker))
    case MapButton => s.(picker := ShowMap(s.picker))
  }

  /** A sequence of events, handled one after the other. */
  function Run(s: Session, evs: seq<UiEvent>): (r: Session)
    requires WellFormed(s.picker)
    ensures WellFormed(r.picker) && SameSetup(r.picker, s.picker)
    decreases |evs|
  {
    if evs == [] then s else Run(Step(s, evs[0]), evs[1..])
  }
}
