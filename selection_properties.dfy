/** Properties of whole selector sessions: the invariant every event keeps,
    click versus drag, undo, the frozen selection while the map shows, and
    what a complete run of clicks produces. */
module SelectionProperties {
  import opened Selection

  /** A left click inside the image axes at pixel p. */
  function LeftAt(p: Pixel): (e: MouseEvent)
  {
    MouseEvent(Left, true, Some(p))
  }

  /** A right click inside the image axes (its position plays no part). */
  function RightIn(pos: Option<Pixel>): (e: MouseEvent)
  {
    MouseEvent(Right, true, pos)
  }

  /** The events of a click without motion: press, then release. */
  function ClickEvents(e: MouseEvent): (evs: seq<UiEvent>)
  {
    [ButtonPress, ButtonRelease(e)]
  }

  /** n motion events in a row. */
  function Motions(n: nat): (evs: seq<UiEvent>)
    ensures |evs| == n
    ensures forall i :: 0 <= i < n ==> evs[i] == Motion
  {
    if n == 0 then [] else [Motion] + Motions(n - 1)
  }

  /** A left click at each pixel of pts, in order. */
  function LeftClicks(pts: seq<Pixel>): (evs: seq<UiEvent>)
    ensures |evs| == 2 * |pts|
  {
    if pts == [] then [] else ClickEvents(LeftAt(pts[0])) + LeftClicks(pts[1..])
  }

  lemma {:induction false} RunAppend(s: Session, a: seq<UiEvent>, b: seq<UiEvent>)
    requires WellFormed(s.picker)
    ensures Run(s, a + b) == Run(Run(s, a), b)
    decreases |a|
  {
    if a == [] {
      assert a + b == b;
    } else {
      assert (a + b)[0] == a[0];
      assert (a + b)[1..] == a[1..] + b;
      RunAppend(Step(s, a[0]), a[1..], b);
    }
  }

  lemma RunSingle(s: Session, ev: UiEvent)
    requires WellFormed(s.picker)
    ensures Run(s, [ev]) == Step(s, ev)
  {
  }

  /** Every handler keeps a consistent session consistent. */
  lemma StepPreservesConsistent(s: Session, ev: UiEvent)
    requires Consistent(s)
    ensures Consistent(Step(s, ev))
  {
  }

  /** So does every sequence of events. */
  lemma {:induction false} RunPreservesConsistent(s: Session, evs: seq<UiEvent>)
    requires Consistent(s)
    ensures Consistent(Run(s, evs))
    decreases |evs|
  {
    if evs != [] {
      StepPreservesConsistent(s, evs[0]);
      RunPreservesConsistent(Step(s, evs[0]), evs[1..]);
    }
  }

  /** Whatever the operator does, a session never holds more points than
      required, keeps one annotation per point, has "Done" active exactly when
      complete (so "Done" never ends in a usage error), and shows a bounding
      box exactly when all four corners are placed. */
  lemma SessionInvariant(kind: Kind, dst: seq<GroundPoint>, evs: seq<UiEvent>)
    requires |dst| > 0
    ensures Consistent(Run(Initial(kind, dst), evs))
    ensures var r := Run(Initial(kind, dst), evs).picker;
      && |r.src| <= r.required
      && |r.ptsT| == |r.src|
      && (r.doneActive <==> |r.src| == r.required)
      && (DoneClicked(r) == None || DoneClicked(r) == Some(Pass))
      && (kind == AoiMode ==> (r.bboxCam != NoOutline <==> |r.src| == 4))
  {
    RunPreservesConsistent(Initial(kind, dst), evs);
  }

  /** In a control-point session the map highlights exactly the destination
      points matched so far: dst[:len(src)], nothing while src is empty. */
  lemma HighlightedPrefix(dst: seq<GroundPoint>, evs: seq<UiEvent>)
    requires |dst| > 0
    ensures var r := Run(Initial(GcpMode, dst), evs).picker;
      && r.dstSelected == dst[..|r.src|]
      && (r.src == [] ==> r.dstSelected == [])
  {
    RunPreservesConsistent(Initial(GcpMode, dst), evs);
  }

  /** A press and a release with no motion between them act as one click. */
  lemma PressReleaseIsClick(s: Session, e: MouseEvent)
    requires WellFormed(s.picker)
    ensures Run(s, ClickEvents(e)) == Session(Gesture(false, false), Click(s.picker, e))
  {
    assert ClickEvents(e) == [ButtonPress] + [ButtonRelease(e)];
    RunAppend(s, [ButtonPress], [ButtonRelease(e)]);
    RunSingle(s, ButtonPress);
    RunSingle(Press(s), ButtonRelease(e));
  }

  lemma {:induction false} MotionsWhilePressed(s: Session, n: nat)
    requires WellFormed(s.picker) && s.gesture.press
    ensures Run(s, Motions(n)).picker == s.picker
    ensures Run(s, Motions(n)).gesture.press
    ensures n > 0 ==> Run(s, Motions(n)).gesture.move
    decreases n
  {
    if n > 0 {
      assert Motions(n)[0] == Motion && Motions(n)[1..] == Motions(n - 1);
      MotionsWhilePressed(Move(s), n - 1);
    }
  }

  /** A press, some motion and a release is a drag: it changes nothing but the
      gesture flags, whatever the button and wherever it ends. */
  lemma DragIsNotClick(s: Session, n: nat, e: MouseEvent)
    requires WellFormed(s.picker) && n > 0
    ensures Run(s, [ButtonPress] + Motions(n) + [ButtonRelease(e)]) == Session(Gesture(false, false), s.picker)
  {
    var p := Press(s);
    RunAppend(s, [ButtonPress], Motions(n));
    RunAppend(s, [ButtonPress] + Motions(n), [ButtonRelease(e)]);
    RunSingle(s, ButtonPress);
    MotionsWhilePressed(p, n);
    RunSingle(Run(p, Motions(n)), ButtonRelease(e));
  }

  /** Undo: a left click that adds a point, then a right click, leave the
      picker as it was, except that the camera configuration still holds the
      corners it was handed. */
  lemma UndoRestores(s: Picker, p: Pixel, pos: Option<Pixel>)
    requires Ready(s) && s.axVisible && |s.src| < s.required
    ensures var r := Click(Click(s, LeftAt(p)), RightIn(pos));
      r == s.(configCorners := r.configCorners)
  {
  }

  /** Undo with nothing selected changes nothing. */
  lemma EmptyUndoIsNoOp(s: Picker, e: MouseEvent)
    requires Ready(s) && s.src == [] && e.button == Right
    ensures Click(s, e) == s
  {
  }

  /** While the map view shows, no event but the "Camera" button changes the
      selection. */
  lemma {:induction false} MapViewFreezesSelection(s: Session, evs: seq<UiEvent>)
    requires WellFormed(s.picker) && !s.picker.axVisible
    requires forall i :: 0 <= i < |evs| ==> evs[i] != CameraButton
    ensures Run(s, evs).picker.src == s.picker.src && Run(s, evs).picker.ptsT == s.picker.ptsT
    decreases |evs|
  {
    if evs != [] {
      var t := Step(s, evs[0]);
      assert !t.picker.axVisible && t.picker.src == s.picker.src && t.picker.ptsT == s.picker.ptsT;
      MapViewFreezesSelection(t, evs[1..]);
    }
  }

  /** Left clicks inside the image axes, while there is room, append their
      pixels in click order. */
  lemma {:induction false} CollectPoints(s: Session, pts: seq<Pixel>)
    requires WellFormed(s.picker) && s.picker.axVisible
    requires |s.picker.src| + |pts| <= s.picker.required
    ensures Run(s, LeftClicks(pts)).picker.src == s.picker.src + pts
    ensures Run(s, LeftClicks(pts)).picker.axVisible
    ensures pts != [] ==>
              (Run(s, LeftClicks(pts)).picker.doneActive <==> |s.picker.src| + |pts| == s.picker.required)
    decreases |pts|
  {
    if pts == [] {
      assert s.picker.src + pts == s.picker.src;
    } else {
      var t := Run(s, ClickEvents(LeftAt(pts[0])));
      RunAppend(s, ClickEvents(LeftAt(pts[0])), LeftClicks(pts[1..]));
      PressReleaseIsClick(s, LeftAt(pts[0]));
      assert t.picker.src == s.picker.src + [pts[0]];
      CollectPoints(t, pts[1..]);
      assert s.picker.src + [pts[0]] + pts[1..] == s.picker.src + pts;
    }
  }

  /** Once the selection is complete, further left clicks add nothing. */
  lemma {:induction false} ClicksBeyondCapIgnored(s: Session, pts: seq<Pixel>)
    requires WellFormed(s.picker) && |s.picker.src| == s.picker.required
    ensures Run(s, LeftClicks(pts)).picker.src == s.picker.src
    decreases |pts|
  {
    if pts != [] {
      var t := Run(s, ClickEvents(LeftAt(pts[0])));
      RunAppend(s, ClickEvents(LeftAt(pts[0])), LeftClicks(pts[1..]));
      PressReleaseIsClick(s, LeftAt(pts[0]));
      ClicksBeyondCapIgnored(t, pts[1..]);
    }
  }

  /** A fresh session given exactly required_clicks left clicks is complete:
      src is the clicked pixels in order, "Done" is active and closing
      succeeds; an area of interest has its corners named in order and its box
      derived from them, a control-point session highlights every
      destination point. */
  lemma CompleteSelection(kind: Kind, dst: seq<GroundPoint>, pts: seq<Pixel>)
    requires |dst| > 0
    requires |pts| == Initial(kind, dst).picker.required
    ensures var r := Run(Initial(kind, dst), LeftClicks(pts)).picker;
      && r.src == pts
      && r.doneActive
      && Close(r) == Pass
      && DoneClicked(r) == Some(Pass)
      && (kind == AoiMode ==>
            && r.ptsT == [Corner("upstream-left"), Corner("downstream-left"),
                          Corner("downstream-right"), Corner("upstream-right")]
            && r.bboxCam == FromCorners(pts) && r.bboxGeo == FromCorners(pts)
            && r.configCorners == Some(pts))
      && (kind == GcpMode ==> r.dstSelected == dst)
  {
    var s := Initial(kind, dst);
    var r := Run(s, LeftClicks(pts)).picker;
    CollectPoints(s, pts);
    RunPreservesConsistent(s, LeftClicks(pts));
    assert Ready(r) && r.src == pts;
    if kind == AoiMode {
      CompleteAreaOfInterest(r);
    } else {
      assert r.dstSelected == dst[..|dst|];
    }
  }

  /** A complete area of interest names its corners in the fixed order and
      shows, in both views, the box derived from exactly those corners. */
  lemma CompleteAreaOfInterest(r: Picker)
    requires Ready(r) && r.kind == AoiMode && |r.src| == r.required
    ensures r.ptsT == [Corner("upstream-left"), Corner("downstream-left"),
                       Corner("downstream-right"), Corner("upstream-right")]
    ensures r.bboxCam == FromCorners(r.src) && r.bboxGeo == FromCorners(r.src)
    ensures r.configCorners == Some(r.src)
  {
  }

  /** Four corners clicked at (10,10), (10,50), (50,50), (50,10) complete an
      area of interest with exactly those pixels. */
  lemma AoiFourCorners(dst: seq<GroundPoint>)
    requires |dst| > 0
    ensures var pts := [Pixel(10, 10), Pixel(10, 50), Pixel(50, 50), Pixel(50, 10)];
      var r := Run(Initial(AoiMode, dst), LeftClicks(pts)).picker;
      r.src == pts && r.doneActive && Close(r) == Pass && r.bboxCam == FromCorners(pts)
  {
    CompleteSelection(AoiMode, dst, [Pixel(10, 10), Pixel(10, 50), Pixel(50, 50), Pixel(50, 10)]);
  }

  /** Five points clicked for six control points: closing fails with
      "5 of 6 supplied". */
  lemma FiveOfSix(dst: seq<GroundPoint>, pts: seq<Pixel>)
    requires |dst| == 6 && |pts| == 5
    ensures Close(Run(Initial(GcpMode, dst), LeftClicks(pts)).picker) == Fail(NotAllSupplied(6, 5))
  {
    CollectPoints(Initial(GcpMode, dst), pts);
  }

  /** Three points, one undo, one more point, for three control points: the
      third click is replaced by the fourth. */
  lemma AddRemoveAdd(dst: seq<GroundPoint>, p1: Pixel, p2: Pixel, p3: Pixel, p4: Pixel)
    requires |dst| == 3
    ensures var r := Run(Initial(GcpMode, dst),
                         LeftClicks([p1, p2, p3]) + ClickEvents(RightIn(None)) + LeftClicks([p4])).picker;
      r.src == [p1, p2, p4] && r.doneActive && Close(r) == Pass
  {
    var s := Initial(GcpMode, dst);
    var a := Run(s, LeftClicks([p1, p2, p3]));
    CollectPoints(s, [p1, p2, p3]);
    var b := Run(a, ClickEvents(RightIn(None)));
    PressReleaseIsClick(a, RightIn(None));
    assert [p1, p2, p3] == [p1, p2] + [p3];
    assert b.picker.src == [p1, p2];
    CollectPoints(b, [p4]);
    RunAppend(s, LeftClicks([p1, p2, p3]), ClickEvents(RightIn(None)));
    RunAppend(s, LeftClicks([p1, p2, p3]) + ClickEvents(RightIn(None)), LeftClicks([p4]));
  }
}
