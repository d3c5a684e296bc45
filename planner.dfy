/**
 * The planner's renderer: one draw routine per diagram element, each
 * appending its commands to the drawing context, and the full redraw that
 * runs on every input change.
 */
module Planner {
  import opened Wrappers
  import opened Equipment
  import opened Niche
  import opened Geometry
  import opened Canvas

  /** The active installation-type button; any id other than 'niche' is a flat wall. */
  datatype InstallType = FlatWall | NicheWall

  /**
   * The page's inputs: the value of each drop-down (a missing key is a
   * missing element), the two toggles, and the two number fields as parsed
   * (None when empty or not a number).
   */
  datatype Form = Form(selects: map<string, string>, orientation: Orientation, installType: InstallType,
                       floorToCenter: Option<real>, nicheDepth: Option<real>)

  /** Every catalogue screen has a positive width and height, so a scale exists. */
  ghost predicate ScreensMeasurable(data: Catalog) {
    forall i :: 0 <= i < |data.screens| ==> data.screens[i].width > 0.0 && data.screens[i].height > 0.0
  }

  /** The niche depth the redraw uses: the field (default 4) in niche mode, otherwise 0. */
  function NicheDepthSetting(form: Form): real {
    if form.installType == NicheWall then OrDefault(form.nicheDepth, 4.0) else 0.0
  }

  // ----- specification of each draw routine --------------------------------

  function WallCommands(s: Surface): seq<Cmd> {
    [Cmd(WallPart, Stroke(WallRect(s)))]
  }

  function NicheCommands(screen: Screen, player: Option<MediaPlayer>, mount: Option<Mount>,
                         varianceInput: Option<real>, scale: real, s: Surface): seq<Cmd> {
    var r := NicheRect(CalculateNicheSize(Some(screen), player, mount, varianceInput), scale, s);
    [Cmd(NichePart, Fill(r)), Cmd(NichePart, Stroke(r))]
  }

  function ScreenCommands(screen: Screen, mount: Option<Mount>, player: Option<MediaPlayer>, scale: real,
                          o: Orientation, s: Surface): seq<Cmd> {
    [Cmd(ScreenPart, Fill(ScreenRect(screen, o, scale, s)))]
    + (if mount.Some? then [Cmd(MountPart, Stroke(MountRect(mount.value, scale, s)))] else [])
    + (if player.Some? then [Cmd(PlayerPart, Fill(MediaPlayerRect(player.value, screen, o, scale, s)))] else [])
  }

  /** The 16-inch offset line, 20 px left of the box, from the unrotated screen bottom to the box top. */
  function OffsetLine(screen: Screen, box: Rect, scale: real, c: Point): seq<seq<Point>> {
    [[Point(box.x - 20.0, UnrotatedScreenBottom(screen, scale, c)), Point(box.x - 20.0, box.y)]]
  }

  function OffsetLabelAt(screen: Screen, box: Rect, scale: real, c: Point): Point {
    Point(box.x - 25.0, UnrotatedScreenBottom(screen, scale, c) + 8.0 * scale)
  }

  function ReceptacleCommands(screen: Screen, receptacle: Receptacle, scale: real, c: Point): seq<Cmd> {
    var box := ReceptacleRect(receptacle, screen, scale, c);
    [ Cmd(ReceptaclePart, Fill(box)),
      Cmd(ReceptaclePart, Stroke(box)),
      Cmd(ReceptaclePart, Circles(PowerOutletCenters(box), 15.0)),
      Cmd(ReceptaclePart, Stroke(DataOutletRect(box))),
      Cmd(ReceptaclePart, Path(OffsetLine(screen, box, scale, c))),
      Cmd(ReceptaclePart, Text(Label(16.0, "\""), OffsetLabelAt(screen, box, scale, c), false)) ]
  }

  /** A dimension line: where it starts, how long it is, and what its label says. */
  datatype Dimension = Dimension(origin: Point, length: real, caption: Label)

  function HorizontalDimensionCommands(x: real, y: real, width: real, text: Label, part: Part): seq<Cmd> {
    [ Cmd(part, Path([[Point(x, y), Point(x + width, y)]])),
      Cmd(part, Path(ArrowPath(Point(x, y), Zero))),
      Cmd(part, Path(ArrowPath(Point(x + width, y), Pi))),
      Cmd(part, Text(text, Point(x + width / 2.0, y + 20.0), false)),
      Cmd(part, Path([[Point(x, y - 5.0), Point(x, y + 5.0)], [Point(x + width, y - 5.0), Point(x + width, y + 5.0)]])) ]
  }

  function VerticalDimensionCommands(x: real, y: real, height: real, text: Label, part: Part): seq<Cmd> {
    [ Cmd(part, Path([[Point(x, y), Point(x, y + height)]])),
      Cmd(part, Path(ArrowPath(Point(x, y), HalfPi))),
      Cmd(part, Path(ArrowPath(Point(x, y + height), MinusHalfPi))),
      Cmd(part, Text(text, Point(x - 20.0, y + height / 2.0), true)),
      Cmd(part, Path([[Point(x - 5.0, y), Point(x + 5.0, y)], [Point(x - 5.0, y + height), Point(x + 5.0, y + height)]])) ]
  }

  function WidthDimension(screen: Screen, o: Orientation, scale: real, s: Surface): Dimension {
    var c := Center(s);
    var screenWidth := OrientedWidth(screen, o) * scale;
    var screenHeight := OrientedHeight(screen, o) * scale;
    Dimension(Point(c.x - screenWidth / 2.0, c.y + screenHeight / 2.0 + 30.0), screenWidth,
              Label(OrientedWidth(screen, o), "\""))
  }

  function HeightDimension(screen: Screen, o: Orientation, scale: real, s: Surface): Dimension {
    var c := Center(s);
    var screenWidth := OrientedWidth(screen, o) * scale;
    var screenHeight := OrientedHeight(screen, o) * scale;
    Dimension(Point(c.x - screenWidth / 2.0 - 30.0, c.y - screenHeight / 2.0), screenHeight,
              Label(OrientedHeight(screen, o), "\""))
  }

  /** The floor-to-centre dimension as the source places it: starting at the floor line, running downward. */
  function FloorDimensionAsWritten(floorToCenter: real, screen: Screen, o: Orientation, scale: real,
                                   s: Surface): Dimension {
    var c := Center(s);
    var screenWidth := OrientedWidth(screen, o) * scale;
    Dimension(Point(c.x + screenWidth / 2.0 + 60.0, s.height * 0.9), s.height * 0.9 - c.y,
              Label(floorToCenter, "\" to center"))
  }

  /**
   * The floor-to-centre dimension as evidently intended, running from the
   * centre line down to the floor line. The redraw does not use it.
   */
  function FloorDimension(floorToCenter: real, screen: Screen, o: Orientation, scale: real, s: Surface): Dimension {
    var c := Center(s);
    var screenWidth := OrientedWidth(screen, o) * scale;
    Dimension(Point(c.x + screenWidth / 2.0 + 60.0, c.y), s.height * 0.9 - c.y,
              Label(floorToCenter, "\" to center"))
  }

  function DepthDimension(nicheDepth: real, screen: Screen, o: Orientation, scale: real, s: Surface): Dimension {
    var c := Center(s);
    var screenWidth := OrientedWidth(screen, o) * scale;
    Dimension(Point(c.x + screenWidth / 2.0 + 10.0, c.y), nicheDepth * scale, Label(nicheDepth, "\" depth"))
  }

  function HorizontalCommandsOf(d: Dimension, part: Part): seq<Cmd> {
    HorizontalDimensionCommands(d.origin.x, d.origin.y, d.length, d.caption, part)
  }

  function VerticalCommandsOf(d: Dimension, part: Part): seq<Cmd> {
    VerticalDimensionCommands(d.origin.x, d.origin.y, d.length, d.caption, part)
  }

  function DimensionsCommands(screen: Screen, scale: real, floorToCenter: real, nicheDepth: real,
                              o: Orientation, s: Surface): seq<Cmd> {
    HorizontalCommandsOf(WidthDimension(screen, o, scale, s), WidthDimPart)
    + VerticalCommandsOf(HeightDimension(screen, o, scale, s), HeightDimPart)
    + VerticalCommandsOf(FloorDimensionAsWritten(floorToCenter, screen, o, scale, s), FloorDimPart)
    + (if nicheDepth > 0.0 then HorizontalCommandsOf(DepthDimension(nicheDepth, screen, o, scale, s), DepthDimPart)
       else [])
  }

  function ClearCommand(s: Surface): Cmd {
    Cmd(ClearPart, Clear(Rect(0.0, 0.0, s.width, s.height)))
  }

  /** What a redraw paints after the clear once a screen is selected, at a given scale. */
  function SceneCommands(s: Surface, screen: Screen, mount: Option<Mount>, player: Option<MediaPlayer>,
                         receptacle: Option<Receptacle>, form: Form, scale: real): seq<Cmd>
  {
    var o := form.orientation;
    WallCommands(s)
    + (if form.installType == NicheWall then NicheCommands(screen, player, mount, form.nicheDepth, scale, s)
       else [])
    + ScreenCommands(screen, mount, player, scale, o, s)
    + (if receptacle.Some? then ReceptacleCommands(screen, receptacle.value, scale, Center(s)) else [])
    + DimensionsCommands(screen, scale, OrDefault(form.floorToCenter, 60.0), NicheDepthSetting(form), o, s)
  }

  /** The item currently chosen in each drop-down. */
  datatype Selection = Selection(screen: Option<Screen>, mount: Option<Mount>, player: Option<MediaPlayer>,
                                 receptacle: Option<Receptacle>)

  /** The four lookups a redraw makes; nothing changes the inputs between them. */
  function CurrentSelection(data: Catalog, selects: map<string, string>): (sel: Selection)
    ensures ScreensMeasurable(data) ==> Measurable(sel)
  {
    Selection(SelectedScreen(data, selects), SelectedMount(data, selects), SelectedMediaPlayer(data, selects),
              SelectedReceptacle(data, selects))
  }

  /** A selected screen has a positive width and height. */
  predicate Measurable(sel: Selection) {
    sel.screen.Some? ==> sel.screen.value.width > 0.0 && sel.screen.value.height > 0.0
  }

  /** Everything one redraw appends to the context. */
  function DiagramCommands(s: Surface, sel: Selection, form: Form): seq<Cmd>
    requires Measurable(sel)
  {
    match sel.screen
    case None => [ClearCommand(s)]
    case Some(screen) =>
      [ClearCommand(s)]
      + SceneCommands(s, screen, sel.mount, sel.player, sel.receptacle, form,
                      CalculateScale(screen, form.orientation, s))
  }

  // ----- the draw routines ---------------------------------------------------

  method DrawArrow(ctx: Context, tip: Point, angle: Angle)
    modifies ctx`commands
    ensures ctx.commands == old(ctx.commands) + [Cmd(ctx.layer, Path(ArrowPath(tip, angle)))]
  {
    ctx.StrokePath(ArrowPath(tip, angle));
  }

  method DrawHorizontalDimension(ctx: Context, x: real, y: real, width: real, text: Label)
    modifies ctx`commands
    ensures ctx.commands == old(ctx.commands) + HorizontalDimensionCommands(x, y, width, text, ctx.layer)
  {
    ctx.StrokePath([[Point(x, y), Point(x + width, y)]]);
    DrawArrow(ctx, Point(x, y), Zero);
    DrawArrow(ctx, Point(x + width, y), Pi);
    var textY := y + 20.0;
    ctx.FillText(text, Point(x + width / 2.0, textY), false);
    ctx.StrokePath([[Point(x, y - 5.0), Point(x, y + 5.0)], [Point(x + width, y - 5.0), Point(x + width, y + 5.0)]]);
  }

  method DrawVerticalDimension(ctx: Context, x: real, y: real, height: real, text: Label)
    modifies ctx`commands
    ensures ctx.commands == old(ctx.commands) + VerticalDimensionCommands(x, y, height, text, ctx.layer)
  {
    ctx.StrokePath([[Point(x, y), Point(x, y + height)]]);
    DrawArrow(ctx, Point(x, y), HalfPi);
    DrawArrow(ctx, Point(x, y + height), MinusHalfPi);
    ctx.FillText(text, Point(x - 20.0, y + height / 2.0), true);
    ctx.StrokePath([[Point(x - 5.0, y), Point(x + 5.0, y)], [Point(x - 5.0, y + height), Point(x + 5.0, y + height)]]);
  }

  method DrawWall(ctx: Context, s: Surface)
    modifies ctx
    ensures ctx.commands == old(ctx.commands) + WallCommands(s)
  {
    ctx.layer := WallPart;
    ctx.StrokeRect(WallRect(s));
  }

  /** The screen block, then the mount outline and the media player block when selected. */
  method DrawScreen(ctx: Context, screen: Screen, data: Catalog, selects: map<string, string>, scale: real,
                    o: Orientation, s: Surface)
    modifies ctx
    ensures ctx.commands == old(ctx.commands)
                            + ScreenCommands(screen, SelectedMount(data, selects), SelectedMediaPlayer(data, selects),
                                             scale, o, s)
  {
    ctx.layer := ScreenPart;
    ctx.FillRect(ScreenRect(screen, o, scale, s));
    var selectedMount := SelectedMount(data, selects);
    DrawMount(ctx, selectedMount, scale, s);
    var selectedMediaPlayer := SelectedMediaPlayer(data, selects);
    DrawMediaPlayer(ctx, selectedMediaPlayer, screen, o, scale, s);
  }

  /** The mount outline, when a mount is selected. */
  method DrawMount(ctx: Context, selectedMount: Option<Mount>, scale: real, s: Surface)
    modifies ctx
    ensures ctx.commands == old(ctx.commands)
                            + if selectedMount.Some? then [Cmd(MountPart, Stroke(MountRect(selectedMount.value, scale, s)))]
                              else []
  {
    if selectedMount.Some? {
      ctx.layer := MountPart;
      ctx.StrokeRect(MountRect(selectedMount.value, scale, s));
    }
  }

  /** The media player block, when a media player is selected. */
  method DrawMediaPlayer(ctx: Context, selectedMediaPlayer: Option<MediaPlayer>, screen: Screen, o: Orientation,
                         scale: real, s: Surface)
    modifies ctx
    ensures ctx.commands == old(ctx.commands)
                            + if selectedMediaPlayer.Some?
                              then [Cmd(PlayerPart, Fill(MediaPlayerRect(selectedMediaPlayer.value, screen, o, scale, s)))]
                              else []
  {
    if selectedMediaPlayer.Some? {
      ctx.layer := PlayerPart;
      ctx.FillRect(MediaPlayerRect(selectedMediaPlayer.value, screen, o, scale, s));
    }
  }

  method DrawNiche(ctx: Context, screen: Screen, data: Catalog, selects: map<string, string>,
                   varianceInput: Option<real>, scale: real, s: Surface)
    modifies ctx
    ensures ctx.commands == old(ctx.commands)
                            + NicheCommands(screen, SelectedMediaPlayer(data, selects), SelectedMount(data, selects),
                                            varianceInput, scale, s)
  {
    var selectedMount := SelectedMount(data, selects);
    var selectedMediaPlayer := SelectedMediaPlayer(data, selects);
    var nicheSize := CalculateNicheSize(Some(screen), selectedMediaPlayer, selectedMount, varianceInput);
    var r := NicheRect(nicheSize, scale, s);
    ctx.layer := NichePart;
    ctx.FillRect(r);
    ctx.StrokeRect(r);
  }

  method DrawReceptacleBox(ctx: Context, screen: Screen, receptacle: Receptacle, scale: real,
                           centerX: real, centerY: real)
    modifies ctx
    ensures ctx.commands == old(ctx.commands) + ReceptacleCommands(screen, receptacle, scale, Point(centerX, centerY))
  {
    var c := Point(centerX, centerY);
    var box := ReceptacleRect(receptacle, screen, scale, c);
    ctx.layer := ReceptaclePart;
    ctx.FillRect(box);
    ctx.StrokeRect(box);
    ctx.FillCircles(PowerOutletCenters(box), 15.0);
    ctx.StrokeRect(DataOutletRect(box));
    ctx.StrokePath(OffsetLine(screen, box, scale, c));
    ctx.FillText(Label(16.0, "\""), OffsetLabelAt(screen, box, scale, c), false);
  }

  method DrawDimensions(ctx: Context, screen: Screen, scale: real, floorToCenter: real, nicheDepth: real,
                        o: Orientation, s: Surface)
    modifies ctx
    ensures ctx.commands == old(ctx.commands) + DimensionsCommands(screen, scale, floorToCenter, nicheDepth, o, s)
  {
    var width := WidthDimension(screen, o, scale, s);
    ctx.layer := WidthDimPart;
    DrawHorizontalDimension(ctx, width.origin.x, width.origin.y, width.length, width.caption);
    var height := HeightDimension(screen, o, scale, s);
    ctx.layer := HeightDimPart;
    DrawVerticalDimension(ctx, height.origin.x, height.origin.y, height.length, height.caption);
    var floor := FloorDimensionAsWritten(floorToCenter, screen, o, scale, s);
    ctx.layer := FloorDimPart;
    DrawVerticalDimension(ctx, floor.origin.x, floor.origin.y, floor.length, floor.caption);
    if nicheDepth > 0.0 {
      var depth := DepthDimension(nicheDepth, screen, o, scale, s);
      ctx.layer := DepthDimPart;
      DrawHorizontalDimension(ctx, depth.origin.x, depth.origin.y, depth.length, depth.caption);
    }
  }

  /** Regrouping a concatenation; the redraw proof needs these instances spelled out. */
  lemma AppendAssoc(a: seq<Cmd>, b: seq<Cmd>, c: seq<Cmd>)
    ensures (a + b) + c == a + (b + c)
  {
  }

  /** The full redraw run on every input change. */
  method UpdateDiagram(ctx: Context, s: Surface, data: Catalog, form: Form)
    requires ScreensMeasurable(data)
    modifies ctx
    ensures ctx.commands == old(ctx.commands) + DiagramCommands(s, CurrentSelection(data, form.selects), form)
  {
    ghost var before := ctx.commands;
    ctx.layer := ClearPart;
    ctx.ClearRect(Rect(0.0, 0.0, s.width, s.height));

    var selectedScreen := SelectedScreen(data, form.selects);
    var selectedReceptacle := SelectedReceptacle(data, form.selects);
    if selectedScreen.None? {
      return;
    }
    var screen := selectedScreen.value;
    var orientation := form.orientation;
    var installType := form.installType;
    var floorToCenter := OrDefault(form.floorToCenter, 60.0);
    var nicheDepth := if installType == NicheWall then OrDefault(form.nicheDepth, 4.0) else 0.0;

    var scale := CalculateScale(screen, orientation, s);
    var centerX := s.width / 2.0;
    var centerY := s.height / 2.0;
    assert Point(centerX, centerY) == Center(s);

    ghost var start := ctx.commands;
    ghost var mount := SelectedMount(data, form.selects);
    ghost var player := SelectedMediaPlayer(data, form.selects);
    ghost var wall := WallCommands(s);
    ghost var niche := if installType == NicheWall then NicheCommands(screen, player, mount, form.nicheDepth, scale, s)
                       else [];
    ghost var body := ScreenCommands(screen, mount, player, scale, orientation, s);
    ghost var box := if selectedReceptacle.Some?
                     then ReceptacleCommands(screen, selectedReceptacle.value, scale, Center(s)) else [];
    ghost var dims := DimensionsCommands(screen, scale, floorToCenter, nicheDepth, orientation, s);
    assert nicheDepth == NicheDepthSetting(form);
    assert SceneCommands(s, screen, mount, player, selectedReceptacle, form, scale)
           == wall + niche + body + box + dims;

    DrawWall(ctx, s);
    if installType == NicheWall {
      DrawNiche(ctx, screen, data, form.selects, form.nicheDepth, scale, s);
    } else {
      assert wall + niche == wall;
    }
    AppendAssoc(start, wall, niche);
    DrawScreen(ctx, screen, data, form.selects, scale, orientation, s);
    AppendAssoc(start, wall + niche, body);
    if selectedReceptacle.Some? {
      DrawReceptacleBox(ctx, screen, selectedReceptacle.value, scale, centerX, centerY);
    } else {
      assert wall + niche + body + box == wall + niche + body;
    }
    AppendAssoc(start, wall + niche + body, box);
    DrawDimensions(ctx, screen, scale, floorToCenter, nicheDepth, orientation, s);
    AppendAssoc(start, wall + niche + body + box, dims);
    AppendAssoc(before, [ClearCommand(s)], wall + niche + body + box + dims);
    assert CurrentSelection(data, form.selects)
           == Selection(selectedScreen, mount, player, selectedReceptacle);
  }

  // ----- what a redraw paints ------------------------------------------------

  lemma ScreenCommandsLayers(screen: Screen, mount: Option<Mount>, player: Option<MediaPlayer>, scale: real,
                             o: Orientation, s: Surface)
    ensures var cmds := ScreenCommands(screen, mount, player, scale, o, s);
            && Band(cmds, 3, 5) && NoClear(cmds)
            && PartsOf(cmds) == {ScreenPart} + (if mount.Some? then {MountPart} else {})
                                + (if player.Some? then {PlayerPart} else {})
  {
    var first := [Cmd(ScreenPart, Fill(ScreenRect(screen, o, scale, s)))];
    var m := if mount.Some? then [Cmd(MountPart, Stroke(MountRect(mount.value, scale, s)))] else [];
    var p := if player.Some? then [Cmd(PlayerPart, Fill(MediaPlayerRect(player.value, screen, o, scale, s)))] else [];
    UniformSegment(first, ScreenPart);
    UniformSegment(m, MountPart);
    UniformSegment(p, PlayerPart);
    Join(first, m, 3, 3, 4);
    Join(first + m, p, 3, 4, 5);
    NoClearConcat(first, m);
    NoClearConcat(first + m, p);
  }

  lemma DimensionsLayers(screen: Screen, scale: real, floorToCenter: real, nicheDepth: real, o: Orientation,
                         s: Surface)
    ensures var cmds := DimensionsCommands(screen, scale, floorToCenter, nicheDepth, o, s);
            && Band(cmds, 7, 10) && NoClear(cmds)
            && PartsOf(cmds) == {WidthDimPart, HeightDimPart, FloorDimPart}
                                + (if nicheDepth > 0.0 then {DepthDimPart} else {})
  {
    var w := HorizontalCommandsOf(WidthDimension(screen, o, scale, s), WidthDimPart);
    var h := VerticalCommandsOf(HeightDimension(screen, o, scale, s), HeightDimPart);
    var f := VerticalCommandsOf(FloorDimensionAsWritten(floorToCenter, screen, o, scale, s), FloorDimPart);
    var d := if nicheDepth > 0.0 then HorizontalCommandsOf(DepthDimension(nicheDepth, screen, o, scale, s), DepthDimPart)
             else [];
    UniformSegment(w, WidthDimPart);
    UniformSegment(h, HeightDimPart);
    UniformSegment(f, FloorDimPart);
    UniformSegment(d, DepthDimPart);
    Join(w, h, 7, 7, 8);
    Join(w + h, f, 7, 8, 9);
    Join(w + h + f, d, 7, 9, 10);
    NoClearConcat(w, h);
    NoClearConcat(w + h, f);
    NoClearConcat(w + h + f, d);
  }

  /** A run of commands for one part, none of which erases. */
  ghost predicate Segment(cmds: seq<Cmd>, p: Part, present: bool) {
    Band(cmds, Rank(p), Rank(p)) && NoClear(cmds) && PartsOf(cmds) == if present then {p} else {}
  }

  lemma WallLayers(s: Surface)
    ensures Segment(WallCommands(s), WallPart, true)
  {
    UniformSegment(WallCommands(s), WallPart);
  }

  lemma NicheLayers(screen: Screen, player: Option<MediaPlayer>, mount: Option<Mount>, varianceInput: Option<real>,
                    scale: real, s: Surface)
    ensures Segment(NicheCommands(screen, player, mount, varianceInput, scale, s), NichePart, true)
  {
    UniformSegment(NicheCommands(screen, player, mount, varianceInput, scale, s), NichePart);
  }

  lemma ReceptacleLayers(screen: Screen, receptacle: Receptacle, scale: real, c: Point)
    ensures Segment(ReceptacleCommands(screen, receptacle, scale, c), ReceptaclePart, true)
  {
    UniformSegment(ReceptacleCommands(screen, receptacle, scale, c), ReceptaclePart);
  }

  lemma EmptySegment(p: Part)
    ensures Segment([], p, false)
  {
  }

  /** Putting the five runs of a redraw together, whatever their contents. */
  lemma SceneFromSegments(wall: seq<Cmd>, niche: seq<Cmd>, body: seq<Cmd>, box: seq<Cmd>, dims: seq<Cmd>,
                          hasNiche: bool, bodyParts: set<Part>, hasBox: bool, dimParts: set<Part>)
    requires Segment(wall, WallPart, true) && Segment(niche, NichePart, hasNiche)
    requires Band(body, 3, 5) && NoClear(body) && PartsOf(body) == bodyParts
    requires Segment(box, ReceptaclePart, hasBox)
    requires Band(dims, 7, 10) && NoClear(dims) && PartsOf(dims) == dimParts
    ensures var cmds := wall + niche + body + box + dims;
            && Band(cmds, 1, 10) && NoClear(cmds)
            && PartsOf(cmds) == {WallPart} + (if hasNiche then {NichePart} else {}) + bodyParts
                                + (if hasBox then {ReceptaclePart} else {}) + dimParts
  {
    BandWiden(niche, 2, 2, 1, 2);
    Join(wall, niche, 1, 1, 2);
    BandWiden(body, 3, 5, 2, 5);
    Join(wall + niche, body, 1, 2, 5);
    BandWiden(box, 6, 6, 5, 6);
    Join(wall + niche + body, box, 1, 5, 6);
    BandWiden(dims, 7, 10, 6, 10);
    Join(wall + niche + body + box, dims, 1, 6, 10);
    NoClearConcat(wall, niche);
    NoClearConcat(wall + niche, body);
    NoClearConcat(wall + niche + body, box);
    NoClearConcat(wall + niche + body + box, dims);
  }

  lemma SceneLayers(s: Surface, screen: Screen, mount: Option<Mount>, player: Option<MediaPlayer>,
                    receptacle: Option<Receptacle>, form: Form, scale: real)
    ensures var cmds := SceneCommands(s, screen, mount, player, receptacle, form, scale);
            && Band(cmds, 1, 10) && NoClear(cmds)
            && PartsOf(cmds) == {WallPart} + (if form.installType == NicheWall then {NichePart} else {})
                                + ({ScreenPart} + (if mount.Some? then {MountPart} else {})
                                   + (if player.Some? then {PlayerPart} else {}))
                                + (if receptacle.Some? then {ReceptaclePart} else {})
                                + ({WidthDimPart, HeightDimPart, FloorDimPart}
                                   + (if NicheDepthSetting(form) > 0.0 then {DepthDimPart} else {}))
  {
    var o := form.orientation;
    var floorToCenter := OrDefault(form.floorToCenter, 60.0);
    WallLayers(s);
    if form.installType == NicheWall {
      NicheLayers(screen, player, mount, form.nicheDepth, scale, s);
    } else {
      EmptySegment(NichePart);
    }
    ScreenCommandsLayers(screen, mount, player, scale, o, s);
    if receptacle.Some? {
      ReceptacleLayers(screen, receptacle.value, scale, Center(s));
    } else {
      EmptySegment(ReceptaclePart);
    }
    DimensionsLayers(screen, scale, floorToCenter, NicheDepthSetting(form), o, s);
    SceneFromSegments(WallCommands(s),
                      if form.installType == NicheWall then NicheCommands(screen, player, mount, form.nicheDepth, scale, s)
                      else [],
                      ScreenCommands(screen, mount, player, scale, o, s),
                      if receptacle.Some? then ReceptacleCommands(screen, receptacle.value, scale, Center(s)) else [],
                      DimensionsCommands(screen, scale, floorToCenter, NicheDepthSetting(form), o, s),
                      form.installType == NicheWall,
                      {ScreenPart} + (if mount.Some? then {MountPart} else {})
                      + (if player.Some? then {PlayerPart} else {}),
                      receptacle.Some?,
                      {WidthDimPart, HeightDimPart, FloorDimPart}
                      + (if NicheDepthSetting(form) > 0.0 then {DepthDimPart} else {}));
  }

  /**
   * A redraw starts with the clear and paints in the fixed order wall, niche,
   * screen, mount, media player, receptacle, width, height, floor-to-centre
   * and depth dimensions; each optional part appears exactly when its
   * condition holds, and nothing but the clear appears without a screen.
   */
  lemma DiagramLayers(s: Surface, sel: Selection, form: Form)
    requires Measurable(sel)
    ensures var cmds := DiagramCommands(s, sel, form);
            var screen := sel.screen.Some?;
            && |cmds| > 0 && cmds[0] == ClearCommand(s)
            && Ordered(cmds)
            && PartsOf(cmds)
               == {ClearPart}
                  + (if screen then {WallPart, ScreenPart, WidthDimPart, HeightDimPart, FloorDimPart} else {})
                  + (if screen && form.installType == NicheWall then {NichePart} else {})
                  + (if screen && sel.mount.Some? then {MountPart} else {})
                  + (if screen && sel.player.Some? then {PlayerPart} else {})
                  + (if screen && sel.receptacle.Some? then {ReceptaclePart} else {})
                  + (if screen && form.installType == NicheWall && OrDefault(form.nicheDepth, 4.0) > 0.0
                     then {DepthDimPart} else {})
  {
    var cmds := DiagramCommands(s, sel, form);
    if sel.screen.Some? {
      var screen := sel.screen.value;
      var scale := CalculateScale(screen, form.orientation, s);
      var scene := SceneCommands(s, screen, sel.mount, sel.player, sel.receptacle, form, scale);
      SceneLayers(s, screen, sel.mount, sel.player, sel.receptacle, form, scale);
      assert cmds == [ClearCommand(s)] + scene;
      ClearThenScene(ClearCommand(s), scene);
      assert (NicheDepthSetting(form) > 0.0) == (form.installType == NicheWall && OrDefault(form.nicheDepth, 4.0) > 0.0);
      ScenePartsInDiagram(PartsOf(cmds), PartsOf(scene), sel, form);
    } else {
      ClearThenScene(ClearCommand(s), []);
      assert cmds == [ClearCommand(s)] + [];
    }
  }

  /** The parts of a diagram with a screen, as the clear plus the scene's parts. */
  lemma ScenePartsInDiagram(diagram: set<Part>, scene: set<Part>, sel: Selection, form: Form)
    requires sel.screen.Some?
    requires diagram == {ClearPart} + scene
    requires scene == {WallPart} + (if form.installType == NicheWall then {NichePart} else {})
                      + ({ScreenPart} + (if sel.mount.Some? then {MountPart} else {})
                         + (if sel.player.Some? then {PlayerPart} else {}))
                      + (if sel.receptacle.Some? then {ReceptaclePart} else {})
                      + ({WidthDimPart, HeightDimPart, FloorDimPart}
                         + (if NicheDepthSetting(form) > 0.0 then {DepthDimPart} else {}))
    ensures diagram == {ClearPart} + {WallPart, ScreenPart, WidthDimPart, HeightDimPart, FloorDimPart}
                       + (if form.installType == NicheWall then {NichePart} else {})
                       + (if sel.mount.Some? then {MountPart} else {})
                       + (if sel.player.Some? then {PlayerPart} else {})
                       + (if sel.receptacle.Some? then {ReceptaclePart} else {})
                       + (if form.installType == NicheWall && OrDefault(form.nicheDepth, 4.0) > 0.0
                          then {DepthDimPart} else {})
  {
  }

  /** A clear followed by a scene painted in order is itself in order. */
  lemma ClearThenScene(clear: Cmd, scene: seq<Cmd>)
    requires clear.part == ClearPart && Band(scene, 1, 10)
    ensures Ordered([clear] + scene)
    ensures PartsOf([clear] + scene) == {ClearPart} + PartsOf(scene)
  {
    UniformSegment([clear], ClearPart);
    BandWiden(scene, 1, 10, 0, 10);
    Join([clear], scene, 0, 0, 10);
    BandOrdered([clear] + scene, 0, 10);
  }

  /** With no screen chosen a redraw only clears, and with one it does more. */
  lemma DiagramWithoutScreen(s: Surface, sel: Selection, form: Form)
    requires Measurable(sel)
    ensures DiagramCommands(s, sel, form) == [ClearCommand(s)] <==> sel.screen.None?
  {
    if sel.screen.Some? {
      DiagramLayers(s, sel, form);
      var cmds := DiagramCommands(s, sel, form);
      PartsOfMembers([ClearCommand(s)], WallPart);
    }
  }

  /** An empty or missing screen drop-down selects no screen. */
  lemma NoScreenChosen(data: Catalog, selects: map<string, string>)
    requires "screenModel" !in selects || selects["screenModel"] == ""
    ensures CurrentSelection(data, selects).screen.None?
  {
  }

  /**
   * A redraw replaces the picture: whatever was drawn before, what remains
   * visible afterwards is exactly what this redraw painted.
   */
  lemma RedrawReplacesPicture(before: seq<Cmd>, s: Surface, sel: Selection, form: Form)
    requires Measurable(sel)
    ensures Visible(before + DiagramCommands(s, sel, form), s) == DiagramCommands(s, sel, form)
  {
    var cmds := DiagramCommands(s, sel, form);
    assert cmds[0] == ClearCommand(s);
    forall i | 0 < i < |cmds| ensures !Wipes(cmds[i], s) {
      if sel.screen.Some? {
        var screen := sel.screen.value;
        var scale := CalculateScale(screen, form.orientation, s);
        var scene := SceneCommands(s, screen, sel.mount, sel.player, sel.receptacle, form, scale);
        SceneLayers(s, screen, sel.mount, sel.player, sel.receptacle, form, scale);
        assert cmds[i] == scene[i - 1];
      }
    }
    VisibleAfterWipe(before, cmds, s);
  }

  /** Redrawing twice with unchanged inputs leaves the same picture as redrawing once. */
  lemma RedrawIdempotent(before: seq<Cmd>, s: Surface, sel: Selection, form: Form)
    requires Measurable(sel)
    ensures var once := before + DiagramCommands(s, sel, form);
            Visible(once + DiagramCommands(s, sel, form), s) == Visible(once, s)
  {
    RedrawReplacesPicture(before, s, sel, form);
    RedrawReplacesPicture(before + DiagramCommands(s, sel, form), s, sel, form);
  }

  // ----- dimension lines -----------------------------------------------------

  function Midpoint(a: Point, b: Point): Point {
    Point((a.x + b.x) / 2.0, (a.y + b.y) / 2.0)
  }

  /** A one-stroke chevron with its tip at `tip` whose wings trail away from `other`. */
  predicate ArrowPointsToward(path: seq<seq<Point>>, tip: Point, other: Point) {
    && |path| == 1 && |path[0]| == 3 && path[0][1] == tip
    && Dot(Sub(tip, path[0][0]), Sub(other, tip)) > 0.0
    && Dot(Sub(tip, path[0][2]), Sub(other, tip)) > 0.0
  }

  /** A 10 px end tick centred on `end`, perpendicular to `along`. */
  predicate Tick(seg: seq<Point>, end: Point, along: Point) {
    && |seg| == 2 && Midpoint(seg[0], seg[1]) == end
    && Dot(Sub(seg[1], seg[0]), along) == 0.0
    && Dot(Sub(seg[1], seg[0]), Sub(seg[1], seg[0])) == 100.0
  }

  /**
   * The shape of a dimension from a to b: the line, an arrowhead at each end
   * pointing toward the other end, a label, and a perpendicular tick at each end.
   */
  ghost predicate DimensionShape(cmds: seq<Cmd>, a: Point, b: Point, part: Part) {
    && |cmds| == 5 && Uniform(cmds, part)
    && cmds[0].op == Path([[a, b]])
    && cmds[1].op.Path? && ArrowPointsToward(cmds[1].op.subpaths, a, b)
    && cmds[2].op.Path? && ArrowPointsToward(cmds[2].op.subpaths, b, a)
    && cmds[3].op.Text?
    && cmds[4].op.Path? && |cmds[4].op.subpaths| == 2
    && Tick(cmds[4].op.subpaths[0], a, Sub(b, a)) && Tick(cmds[4].op.subpaths[1], b, Sub(b, a))
  }

  /** A horizontal dimension of positive width; its label sits 20 px below the midpoint, upright. */
  lemma HorizontalDimensionShape(x: real, y: real, width: real, text: Label, part: Part)
    requires width > 0.0
    ensures var cmds := HorizontalDimensionCommands(x, y, width, text, part);
            var a := Point(x, y);
            var b := Point(x + width, y);
            && DimensionShape(cmds, a, b, part)
            && cmds[3].op == Text(text, Point(Midpoint(a, b).x, Midpoint(a, b).y + 20.0), false)
  {
  }

  /** A vertical dimension of positive height; its label is rotated and sits 20 px left of the midpoint. */
  lemma VerticalDimensionShape(x: real, y: real, height: real, text: Label, part: Part)
    requires height > 0.0
    ensures var cmds := VerticalDimensionCommands(x, y, height, text, part);
            var a := Point(x, y);
            var b := Point(x, y + height);
            && DimensionShape(cmds, a, b, part)
            && cmds[3].op == Text(text, Point(Midpoint(a, b).x - 20.0, Midpoint(a, b).y), true)
  {
  }

  /**
   * The width and height dimensions frame the drawn screen (30 px below and
   * 30 px left of it); the depth dimension starts 10 px right of it at
   * centre height. Each label states the physical length its line draws.
   */
  lemma DimensionsFrameScreen(screen: Screen, o: Orientation, scale: real, nicheDepth: real, s: Surface)
    ensures var r := ScreenRect(screen, o, scale, s);
            var w := WidthDimension(screen, o, scale, s);
            var h := HeightDimension(screen, o, scale, s);
            var d := DepthDimension(nicheDepth, screen, o, scale, s);
            && w.origin == Point(r.x, Bottom(r) + 30.0) && w.length == r.w
            && h.origin == Point(r.x - 30.0, r.y) && h.length == r.h
            && d.origin == Point(r.x + r.w + 10.0, Center(s).y)
            && w.caption.value * scale == w.length && w.caption.suffix == "\""
            && h.caption.value * scale == h.length && h.caption.suffix == "\""
            && d.caption.value * scale == d.length && d.caption.suffix == "\" depth"
  {
  }

  /** As written, the floor-to-centre line starts at the floor line and ends below the surface. */
  lemma FloorDimensionAsWrittenLeavesSurface(floorToCenter: real, screen: Screen, o: Orientation, scale: real,
                                             s: Surface)
    requires s.height > 0.0
    ensures var d := FloorDimensionAsWritten(floorToCenter, screen, o, scale, s);
            && d.origin.y == 0.9 * s.height && d.length > 0.0
            && d.origin.y + d.length == 1.3 * s.height && d.origin.y + d.length > s.height
  {
  }

  /**
   * In the drawn dimensions the floor-to-centre line is the as-written one:
   * it starts on the floor line and ends below the surface.
   */
  lemma DrawnFloorLineLeavesSurface(screen: Screen, scale: real, floorToCenter: real, nicheDepth: real,
                                    o: Orientation, s: Surface)
    requires s.height > 0.0
    ensures var cmds := DimensionsCommands(screen, scale, floorToCenter, nicheDepth, o, s);
            var x := Center(s).x + OrientedWidth(screen, o) * scale / 2.0 + 60.0;
            && |cmds| > 10 && cmds[10].part == FloorDimPart
            && cmds[10].op == Path([[Point(x, 0.9 * s.height), Point(x, 1.3 * s.height)]])
            && 1.3 * s.height > s.height
  {
    var cmds := DimensionsCommands(screen, scale, floorToCenter, nicheDepth, o, s);
    var d := FloorDimensionAsWritten(floorToCenter, screen, o, scale, s);
    var x := Center(s).x + OrientedWidth(screen, o) * scale / 2.0 + 60.0;
    assert d.origin == Point(x, 0.9 * s.height);
    assert d.origin.y + d.length == 1.3 * s.height;
    assert cmds[10] == VerticalCommandsOf(d, FloorDimPart)[0];
    assert cmds[10].op == Path([[d.origin, Point(d.origin.x, d.origin.y + d.length)]]);
  }

  /** Corrected, the floor-to-centre line runs from the centre line down to the floor line, inside the surface. */
  lemma FloorDimensionSpansCentreToFloor(floorToCenter: real, screen: Screen, o: Orientation, scale: real,
                                         s: Surface)
    requires s.height >= 0.0
    ensures var d := FloorDimension(floorToCenter, screen, o, scale, s);
            var r := ScreenRect(screen, o, scale, s);
            && d.origin == Point(r.x + r.w + 60.0, Center(s).y)
            && d.origin.y + d.length == 0.9 * s.height
            && 0.0 <= d.origin.y <= d.origin.y + d.length <= s.height
            && d.caption == Label(floorToCenter, "\" to center")
  {
  }

  /**
   * The receptacle's offset annotation: a vertical line 20 px left of the box
   * from the unrotated screen bottom to the box top, 16 inches long at the
   * base scale, labelled 16" at its mid-height.
   */
  lemma ReceptacleOffsetAnnotation(screen: Screen, receptacle: Receptacle, scale: real, c: Point)
    ensures var box := ReceptacleRect(receptacle, screen, scale, c);
            var line := OffsetLine(screen, box, scale, c);
            var at := OffsetLabelAt(screen, box, scale, c);
            && |line| == 1 && |line[0]| == 2
            && line[0][0].x == box.x - 20.0 && line[0][1].x == box.x - 20.0
            && line[0][1].y == box.y && line[0][1].y - line[0][0].y == 16.0 * scale
            && at.y == Midpoint(line[0][0], line[0][1]).y && at.x == box.x - 25.0
  {
  }
}
