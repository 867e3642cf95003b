# Interactive point selection of pyorc's command line, in Dafny

pyorc's command line asks the operator to click points on a camera image. There are two selectors.
`GcpSelect` collects one pixel per ground control point. `AoiSelect` collects the four corners of an
area of interest, in the order upstream-left, downstream-left, downstream-right, upstream-right.
Both derive from `BaseSelect`. Its matplotlib callbacks are a small state machine:

- `press`/`move` tell a click from a drag;
- `src` holds the selected pixels and `pts_t` their annotations;
- the "Done" button is active only when the selection is complete;
- one of two axes is visible: the camera image or the map;
- an area of interest shows a bounding box derived from its corners;
- a control-point session highlights the destination points matched so far;
- closing the window with too few points raises a usage error.

The project has three modules:

- `Selection` (selection.dfy) is the state machine as values. `Session` is the gesture flags plus a
  `Picker` that holds every other field. There is one function per handler, and `Step`/`Run`
  deliver a sequence of figure events. `Ready` and `Consistent` are the invariants that hold
  between events.
- `SelectionProperties` (selection_properties.dfy) proves properties of whole sessions: the
  invariant is kept by every event sequence, click versus drag, undo, the selection is frozen while
  the map shows, and what a full run of clicks produces. It also proves three concrete
  scenarios: four corners at (10,10), (10,50), (50,50), (50,10); five points of six; add, undo, add.
- `CliElements` (cli_elements.dfy) holds the class `BaseSelect`. Its fields are those of the
  Python object. Named constructors `AoiSelect` and `GcpSelect` stand for the subclasses. Each
  handler method is proved to change the fields exactly as the matching `Selection` function says.
  `OnClose` and `ClickDone` return exactly what `Close` and `DoneClicked` compute on the fields.

Modelling choices:

- A click position arrives already rounded to an integer `Pixel`. `None` stands for
  `event.xdata is None`.
- An annotation is modelled by its text: the point's number, or the corner name.
- The calls to the camera configuration are recorded, not computed. `set_bbox_from_corners(src)`
  records `src` in `configCorners`. The two polygon patches become `FromCorners(src)`: the box the
  configuration derives from those corners, in camera and in map coordinates.
- Python's `dst[:n]` clamps at the end of the list; `Prefix` does the same.

Details of the code's behaviour that the model keeps:

- A right click undoes only when it lands inside the visible image axes.
- The "Done" state is recomputed only after a click inside the visible image axes. `Ready` proves
  that it is still active exactly when the selection is complete.
- Both bounding-box patches are cleared after every click that leaves fewer or more than four
  corners, wherever the click lands. The corners already handed to the camera configuration are
  not withdrawn on undo. `UndoRestores` states this exception.

## Model

| member | source | states |
|---|---|---|
| `Selection.Initial` | pyorc/cli/cli_elements.py:89-99 | a new session is consistent: nothing selected, image axes showing, map hidden, "Done" inactive, no button down, required = 4 (area of interest) or len(dst) (control points) |
| `Selection.Press` | pyorc/cli/cli_elements.py:140-142 | a press sets `press`, clears `move` and changes nothing else |
| `Selection.Move` | pyorc/cli/cli_elements.py:144-147 | motion sets `move` only while `press` is set; nothing else changes |
| `Selection.Release` | pyorc/cli/cli_elements.py:185-189 | the click handler runs exactly when the release follows a press with no motion; afterwards both flags are clear |
| `Selection.LeftClick` | pyorc/cli/cli_elements.py:167-183 | with a data position, one pixel is appended and earlier ones are unchanged, and the annotation list grows with it; without one nothing changes; the fourth AOI corner sets the box from the corners |
| `Selection.DeriveBbox` | pyorc/cli/cli_elements.py:309-320 | when the fourth AOI corner is placed, the configuration receives `src` and both patches show the box from `src`; otherwise nothing changes |
| `Selection.RightClick` | pyorc/cli/cli_elements.py:191-202 | removes the last pixel and the last annotation when present; on empty lists nothing changes; the shape invariant is kept |
| `Selection.BaseClick` | pyorc/cli/cli_elements.py:149-165 | only a click inside the visible image axes acts; a left click adds a point exactly when there is room and a position; a right click removes the last one; then "Done" is active iff len(src) == required; the cap holds |
| `Selection.Click` | pyorc/cli/cli_elements.py:323-328 | after the base handler an AOI session clears both patches unless 4 corners are placed; a GCP session highlights dst[:len(src)]; the configuration's corners change only on an accepted click, to the new src; the between-events invariant is kept |
| `Selection.Prefix` | pyorc/cli/cli_elements.py:370 | Python's slice: a prefix of the list, of length min(n, len) |
| `Selection.ShowCamera` | pyorc/cli/cli_elements.py:204-210 | the image axes are shown and the map hidden; nothing else changes |
| `Selection.ShowMap` | pyorc/cli/cli_elements.py:213-219 | the map is shown and the image axes hidden; nothing else changes |
| `Selection.Close` | pyorc/cli/cli_elements.py:131-138 | closing passes iff len(src) == required; otherwise it fails with a usage error carrying the required and the supplied count |
| `Selection.DoneClicked` | pyorc/cli/cli_elements.py:119-129 | the Done callback runs iff the button is active; in a consistent session it never ends in a usage error |
| `Selection.Step` | pyorc/cli/cli_elements.py:93-96 | every event keeps the cap and the annotations in lock-step, and leaves kind, dst and required unchanged |
| `Selection.Run` | pyorc/cli/cli_elements.py:93-96 | so does any sequence of events |
| `SelectionProperties.StepPreservesConsistent` | pyorc/cli/cli_elements.py:140-219 | every handler keeps a consistent session consistent |
| `SelectionProperties.RunPreservesConsistent` | pyorc/cli/cli_elements.py:140-219 | any event sequence keeps a consistent session consistent |
| `SelectionProperties.SessionInvariant` | pyorc/cli/cli_elements.py:155-163 | from a new session, after any events: len(src) <= required, len(pts_t) == len(src), "Done" active iff complete, "Done" never raises, AOI box shown iff 4 corners |
| `SelectionProperties.HighlightedPrefix` | pyorc/cli/cli_elements.py:367-374 | in a GCP session the highlighted destination points are always dst[:len(src)], and none while src is empty |
| `SelectionProperties.PressReleaseIsClick` | pyorc/cli/cli_elements.py:185-187 | a press followed directly by a release acts as exactly one click |
| `SelectionProperties.MotionsWhilePressed` | pyorc/cli/cli_elements.py:144-147 | motion while a button is down marks a drag and leaves the selection alone |
| `SelectionProperties.DragIsNotClick` | pyorc/cli/cli_elements.py:140-147 | press, any motion, release: the selection is untouched, whatever the button and position |
| `SelectionProperties.UndoRestores` | pyorc/cli/cli_elements.py:191-202 | an accepted left click followed by a right click restores the whole picker, except the corners already handed to the configuration |
| `SelectionProperties.EmptyUndoIsNoOp` | pyorc/cli/cli_elements.py:152-153 | a right click with nothing selected changes nothing |
| `SelectionProperties.MapViewFreezesSelection` | pyorc/cli/cli_elements.py:151 | while the map shows, no event except the "Camera" button changes src or pts_t |
| `SelectionProperties.CollectPoints` | pyorc/cli/cli_elements.py:168-170 | left clicks inside the image, while there is room, append their pixels in click order; "Done" is active iff the cap is reached |
| `SelectionProperties.ClicksBeyondCapIgnored` | pyorc/cli/cli_elements.py:155-156 | once complete, further left clicks add nothing |
| `SelectionProperties.CompleteSelection` | pyorc/cli/cli_elements.py:158-163 | required_clicks left clicks on a new session: src is the clicks in order, "Done" is active, closing passes; an AOI has its corners named in order and its box from them; a GCP session highlights all of dst |
| `SelectionProperties.CompleteAreaOfInterest` | pyorc/cli/cli_elements.py:20-25 | a complete AOI is annotated upstream-left, downstream-left, downstream-right, upstream-right, and both patches and the configuration hold those corners |
| `SelectionProperties.AoiFourCorners` | pyorc/cli/cli_elements.py:286 | clicks at (10,10), (10,50), (50,50), (50,10) complete an AOI with exactly those pixels and that box |
| `SelectionProperties.FiveOfSix` | pyorc/cli/cli_elements.py:136-138 | five clicks for six control points: closing fails with required 6, supplied 5 |
| `SelectionProperties.AddRemoveAdd` | pyorc/cli/cli_elements.py:191-198 | three clicks, an undo and one more click for three points: src is the 1st, 2nd and 4th clicks, and closing passes |
| `CliElements.BaseSelect.AoiSelect` | pyorc/cli/cli_elements.py:227-286 | a new AOI selector is consistent and in the initial state with required_clicks == 4 |
| `CliElements.BaseSelect.GcpSelect` | pyorc/cli/cli_elements.py:337-365 | a new GCP selector is consistent and in the initial state with required_clicks == len(dst) |
| `CliElements.BaseSelect.OnPress` | pyorc/cli/cli_elements.py:140-142 | the fields change as `Press` says |
| `CliElements.BaseSelect.OnMove` | pyorc/cli/cli_elements.py:144-147 | the fields change as `Move` says |
| `CliElements.BaseSelect.OnRelease` | pyorc/cli/cli_elements.py:185-189 | the fields change as `Release` says, both flags end clear, and consistency is kept |
| `CliElements.BaseSelect.OnClick` | pyorc/cli/cli_elements.py:323-328 | the fields change as `Click` says (AoiSelect/GcpSelect override over the base handler) |
| `CliElements.BaseSelect.BaseOnClick` | pyorc/cli/cli_elements.py:149-165 | the fields change as `BaseClick` says |
| `CliElements.BaseSelect.OnLeftClick` | pyorc/cli/cli_elements.py:291-321 | the fields change as `LeftClick` says |
| `CliElements.BaseSelect.OnRightClick` | pyorc/cli/cli_elements.py:191-202 | the last pixel is removed when present, and the fields change as `RightClick` says |
| `CliElements.BaseSelect.SwitchToAx` | pyorc/cli/cli_elements.py:204-210 | image axes shown, map hidden, nothing else changed |
| `CliElements.BaseSelect.SwitchToAxGeo` | pyorc/cli/cli_elements.py:213-219 | map shown, image axes hidden, nothing else changed |
| `CliElements.BaseSelect.OnClose` | pyorc/cli/cli_elements.py:131-138 | passes iff len(src) == required_clicks; otherwise fails with both counts |
| `CliElements.BaseSelect.ClickDone` | pyorc/cli/cli_elements.py:119-129 | close_window runs only while "Done" is active, and then never raises in a consistent session |

## Left out

- Rendering is not modelled: figure and axes creation, the satellite tiles, the button layout,
  marker and annotation styling, `canvas.draw()`, `toolbar.home()`, `plt.sca` and `plt.show`.
  Only the visibility of the two axes, the "Done" active state and what the patches and
  highlighted points show are kept.
- The map extent with its float `buffer` is floating-point geometry for display only.
- Rounding of `event.xdata`/`event.ydata` (numpy's round-half-to-even) is not modelled. A
  position arrives already rounded.
- The camera configuration is external code. `set_bbox_from_corners`, `get_bbox(...).exterior.xy`
  and the reprojection `helpers.xyz_transform` (with its `hasattr(camera_config, "crs")` branch)
  are recorded as calls, not computed.
- `mpl_connect`/`mpl_disconnect` wiring is not modelled, so `on_close`'s disconnecting of its
  handlers is not either. `Step` plays the role of the connections for a live session.
- A click on a widget button also reaches `on_press`/`on_release`. Its event lies outside the
  image axes, so a `ButtonRelease` with `inImageAxes` false stands for it.
- The AOI constructor's `src` argument (existing control-point pixels drawn for reference) and
  the `p`/`p_geo` marker lines only display data and are left out. The logger calls are left out.
- `plt.close` in `close_window` is window management; `ClickDone` keeps its call of `on_close`.
- `BaseSelect` on its own (with `required_clicks = None`) is never instantiated, so it is not
  modelled apart from its two subclasses.
- CliElements.BaseSelect.AoiSelect: requires a non-empty `dst`. The source computes the map
  extent from `np.array(dst)[:, 0].min()`, which raises on an empty list; that crash is not
  modelled.
- CliElements.BaseSelect.GcpSelect: requires a non-empty `dst`, for the same reason.
- CliElements.BaseSelect.OnLeftClick: requires `len(src) < required_clicks`. Its only caller
  checks this, and AoiSelect's `corner_labels[len(src) - 1]` would raise beyond the fourth corner.
- pyorc/cli/main.py is not part of this model. It is the command-line layer: options, prompts,
  logging, shapefile reading and calls into the processing service. Its check that the source and
  destination counts agree repeats what `on_close` enforces.
