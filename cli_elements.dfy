/** The selectors of pyorc/cli/cli_elements.py as one class: the fields and
    event handlers of BaseSelect, with the overrides of AoiSelect and
    GcpSelect chosen by the kind fixed at construction. Every handler is
    proved to change the fields as the matching function of Selection says. */
module CliElements {
  import opened Selection

  class BaseSelect {
    const kind: Kind
    const dst: seq<GroundPoint>
    const requiredClicks: nat

    var press: bool
    var move: bool
    var src: seq<Pixel>
    var ptsT: seq<Label>
    /** The active state of the "Done" button (button3). */
    var doneActive: bool
    var axVisible: bool
    var axGeoVisible: bool
    /** The bounding-box patches of the camera view and of the map view. */
    var pBbox: Outline
    var pBboxGeo: Outline
    /** The corners last handed to camera_config.set_bbox_from_corners. */
    var bboxCorners: Option<seq<Pixel>>
    /** The destination points p_geo_selected highlights on the map. */
    var pGeoSelected: seq<GroundPoint>

    /** The fields as a value of the state machine. */
    ghost function Model(): Session
      reads this
    {
      Session(
        Gesture(press, move),
        Picker(kind, dst, requiredClicks, src, ptsT, doneActive, axVisible, axGeoVisible,
               pBbox, pBboxGeo, bboxCorners, pGeoSelected))
    }

    ghost predicate Valid()
      reads this
    {
      WellFormed(Model().picker)
    }

    /** AoiSelect.__init__: four corners required, image axes showing. */
    constructor AoiSelect(dst: seq<GroundPoint>)
      requires |dst| > 0
      ensures Valid() && Consistent(Model())
      ensures Model() == Initial(AoiMode, dst)
      ensures requiredClicks == 4 && src == [] && !doneActive
    {
      kind := AoiMode;
      this.dst := dst;
      requiredClicks := AoiCorners;
      press, move := false, false;
      src, ptsT := [], [];
      doneActive := false;
      axVisible, axGeoVisible := true, false;
      pBbox, pBboxGeo := NoOutline, NoOutline;
      bboxCorners := None;
      pGeoSelected := [];
    }

    /** GcpSelect.__init__: one click per destination point. */
    constructor GcpSelect(dst: seq<GroundPoint>)
      requires |dst| > 0
      ensures Valid() && Consistent(Model())
      ensures Model() == Initial(GcpMode, dst)
      ensures requiredClicks == |dst| && src == [] && !doneActive
    {
      kind := GcpMode;
      this.dst := dst;
      requiredClicks := |dst|;
      press, move := false, false;
      src, ptsT := [], [];
      doneActive := false;
      axVisible, axGeoVisible := true, false;
      pBbox, pBboxGeo := NoOutline, NoOutline;
      bboxCorners := None;
      pGeoSelected := [];
    }

    method OnPress()
      modifies this
      ensures press && !move
      ensures Model() == Press(old(Model()))
      ensures Consistent(old(Model())) ==> Consistent(Model())
    {
      press := true;
      move := false;
    }

    method OnMove()
      modifies this
      ensures move == (old(move) || press) && press == old(press)
      ensures Model() == Move(old(Model()))
      ensures Consistent(old(Model())) ==> Consistent(Model())
    {
      if press {
        move := true;
      }
    }

    method OnRelease(e: MouseEvent)
      requires Valid()
      modifies this
      ensures Valid()
      ensures !press && !move
      ensures Model() == Release(old(Model()), e)
      ensures Consistent(old(Model())) ==> Consistent(Model())
    {
      if press && !move {
        OnClick(e);
      }
      press := false;
      move := false;
    }

    /** on_click as overridden by AoiSelect and GcpSelect. */
    method OnClick(e: MouseEvent)
      requires Valid()
      modifies this
      ensures Valid()
      ensures press == old(press) && move == old(move)
      ensures Model().picker == Click(old(Model()).picker, e)
      ensures Consistent(old(Model())) ==> Consistent(Model())
    {
      BaseOnClick(e);
      if kind == AoiMode {
        if |src| != requiredClicks {
          pBbox := NoOutline;
          pBboxGeo := NoOutline;
        }
      } else {
        pGeoSelected := Prefix(dst, |src|);
      }
    }

    /** BaseSelect.on_click. */
    method BaseOnClick(e: MouseEvent)
      requires Valid()
      modifies this
      ensures Valid()
      ensures press == old(press) && move == old(move)
      ensures Model().picker == BaseClick(old(Model()).picker, e)
    {
      if axVisible && e.inImageAxes {
        if e.button == Right {
          OnRightClick();
        } else if e.button == Left {
          if |src| < requiredClicks {
            OnLeftClick(e);
          }
        }
        doneActive := |src| == requiredClicks;
      }
    }

    /** on_left_click of BaseSelect (numbered labels) and of AoiSelect (corner
      names, and the bounding box once the fourth corner is placed). */
    method OnLeftClick(e: MouseEvent)
      requires Valid() && |src| < requiredClicks
      modifies this
      ensures Valid()
      ensures press == old(press) && move == old(move)
      ensures Model().picker == LeftClick(old(Model()).picker, e)
    {
      ghost var before := Model().picker;
      if e.pos.Some? {
        src := src + [e.pos.value];
        ptsT := ptsT + [LabelAt(kind, |src| - 1)];
        assert Model().picker == Append(before, e.pos.value);
        if kind == AoiMode && |src| == requiredClicks {
          bboxCorners := Some(src);
          pBbox := FromCorners(src);
          pBboxGeo := FromCorners(src);
        }
      }
    }

    method OnRightClick()
      modifies this
      ensures old(src) != [] ==> src + [Last(old(src))] == old(src)
      ensures old(src) == [] ==> src == []
      ensures Model().picker == RightClick(old(Model()).picker)
      ensures press == old(press) && move == old(move)
    {
      if |ptsT| > 0 {
        ptsT := ptsT[..|ptsT| - 1];
      }
      if |src| > 0 {
        src := src[..|src| - 1];
      }
    }

    method SwitchToAx()
      modifies this
      ensures axVisible && !axGeoVisible
      ensures Model() == old(Model()).(picker := ShowCamera(old(Model()).picker))
      ensures Consistent(old(Model())) ==> Consistent(Model())
    {
      axVisible := true;
      axGeoVisible := false;
    }

    method SwitchToAxGeo()
      modifies this
      ensures !axVisible && axGeoVisible
      ensures Model() == old(Model()).(picker := ShowMap(old(Model()).picker))
      ensures Consistent(old(Model())) ==> Consistent(Model())
    {
      axVisible := false;
      axGeoVisible := true;
    }

    /** on_close: a usage error with both counts unless exactly
        required_clicks points were selected. */
    method OnClose() returns (r: Outcome)
      ensures r.Pass? <==> |src| == requiredClicks
      ensures r.Fail? ==> r.error == NotAllSupplied(requiredClicks, |src|)
      ensures r == Close(Model().picker)
    {
      if |src| == requiredClicks {
        r := Pass;
      } else {
        r := Fail(NotAllSupplied(requiredClicks, |src|));
      }
    }

    /** A click on "Done": close_window, and with it on_close, runs only
        while the button is active. */
    method ClickDone() returns (r: Option<Outcome>)
      ensures r.Some? <==> doneActive
      ensures Consistent(Model()) ==> r == None || r == Some(Pass)
      ensures r == DoneClicked(Model().picker)
    {
      if doneActive {
        var outcome := OnClose();
        r := Some(outcome);
      } else {
        r := None;
      }
    }
  }
}
