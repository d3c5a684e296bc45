# Signcast planner layout engine in Dafny

Signcast is a planning page for digital-signage installations. The user picks
a screen, a mount, a media player and a receptacle box from catalogue
drop-downs, and a few toggles and fields. A canvas then shows the install to
scale, redrawn on every input change:

- the wall outline;
- the niche (the recess cut into the wall) when a niche install is chosen;
- the screen, with the mount outline and the media player below it;
- the receptacle box, 16 inches below the screen;
- dimension lines for the screen's width and height, the floor-to-centre height and the niche depth.

This project models the layout engine behind that canvas. All quantities are
`real`.

- `Equipment` (`equipment.dfy`): the four catalogue records as the server
  builds them. Media players and receptacle boxes keep their size in a nested
  `dimensions` record; screens and mounts keep it flat. Also here is the
  drop-down lookup `getSelectedEquipment`: a category table, then the first
  item whose id equals the selected value.
- `Niche` (`niche.dfy`): `calculateNicheSize`.
  - The clearance per side is 1.5 inches for a screen at most 55 inches wide and 2 inches otherwise.
  - It is decided on the screen's raw width, whatever the orientation.
  - Depth = screen depth + the deeper of media player and mount + a variance.
  - The variance is the niche-depth field read as `parseFloat(...) || 1`.
- `Geometry` (`geometry.dfy`):
  - `calculateScale`: pixels per inch, the largest scale at which the oriented screen fits in 80% of the canvas.
  - The rectangle each draw routine paints.
  - The four rotations `drawArrow` is used with.
- `Canvas` (`canvas.dfy`): the 2D context as a `Context` object.
  - It appends one command per drawing call to its `commands` log.
  - Each command is tagged with the diagram part being drawn.
  - `Visible` is the part of the log still on the surface: everything since the last full clear.
- `Planner` (`planner.dfy`):
  - Each draw routine is a method on the context, proved to append exactly what its specification function states.
  - `UpdateDiagram` is the full redraw, proved to append `DiagramCommands`.
  - Lemmas about `DiagramCommands`: the paint order, which parts appear under which inputs, and that a redraw replaces the picture.

The page's inputs are plain values of type `Form`:

- each drop-down's value sits in a map, and a missing key is a missing element;
- the two toggles are enumerations;
- each number field is an `Option<real>`, holding the result of `parseFloat`, or `None` when the field is empty or not a number;
- JavaScript's `x || d` is `OrDefault`, which uses `d` for `None` and for `0`.

The niche is preserved as written in two ways:

- It is sized from the unrotated screen, while the screen is drawn rotated in vertical orientation.
- Its variance defaults to 1 in `calculateNicheSize`, while the redraw's niche depth defaults to 4.

The receptacle box is placed from the unrotated screen height, as written.
The floor-to-centre dimension is drawn as written too, from the floor line
downward (see Findings); `FloorDimension` is the evidently intended
placement, which the redraw does not use.

## Model

| member | source | states |
|---|---|---|
| Equipment.FindById | public/planner.js:392 | `find` result: none exactly when no item has the id; otherwise the first item with that id |
| Equipment.GetSelectedEquipment | public/planner.js:377-393 | nothing for a missing drop-down, an empty value or an unmapped id; otherwise an item of the mapped category that is the first with the selected id, and nothing exactly when no item of that category has it |
| Equipment.Items | public/planner.js:382-390 | a category's items are that category's catalogue list, element by element and in order, each of that category |
| Equipment.SelectedScreen | public/planner.js:113 | a screen exactly when the screen drop-down selects an item, and then that catalogue screen |
| Equipment.SelectedMount | public/planner.js:190 | a mount exactly when the mount drop-down selects an item, and then that catalogue mount |
| Equipment.SelectedMediaPlayer | public/planner.js:204 | a media player exactly when its drop-down selects an item, and then that catalogue player |
| Equipment.SelectedReceptacle | public/planner.js:114 | a receptacle box exactly when its drop-down selects an item, and then that catalogue box |
| Equipment.SelectedScreenIsFirst | public/planner.js:377-393 | with a non-empty screen drop-down: no screen exactly when no catalogue screen has the selected id, otherwise the first catalogue screen with that id |
| Equipment.SelectedMountIsFirst | public/planner.js:377-393 | the same for the mount drop-down and the catalogue's mounts |
| Equipment.SelectedMediaPlayerIsFirst | public/planner.js:377-393 | the same for the media player drop-down and the catalogue's media players |
| Equipment.SelectedReceptacleIsFirst | public/planner.js:377-393 | the same for the receptacle drop-down and the catalogue's receptacle boxes |
| Niche.GapSize | public/planner.js:472-473 | the clearance is 1.5 or 2, and 1.5 exactly when the raw width is at most 55 |
| Niche.CalculateNicheSize | public/planner.js:468-494 | zero size without a screen; otherwise the same clearance added on all four sides, and a depth exceeding screen depth plus variance by the deeper of media player and mount, either one counting 0 when absent |
| Niche.VarianceDefault | public/planner.js:484-487 | the variance is the field's value unless it is missing or 0, when it is 1 |
| Niche.NoComponentsDepth | public/planner.js:482-487 | with no media player and no mount the depth is screen depth plus variance |
| Niche.ScenarioSmallScreen | public/planner.js:473-477 | a 55 x 31 x 3 screen gets the 1.5-inch gap: niche 58 x 34 x 4 |
| Niche.ScenarioLargeScreen | public/planner.js:473-487 | a 65 x 37 x 3 screen with a 2-inch mount and a 1.5-inch player: niche 69 x 41 x 6 |
| Geometry.CalculateScale | public/planner.js:152-160 | the oriented screen fits in 80% of the canvas on both axes and touches that bound on one axis, and no larger scale fits |
| Geometry.ScaleIsLinear | public/planner.js:152-160 | scaling both canvas dimensions by k >= 0 scales the result by k |
| Geometry.WallMargins | public/planner.js:163-166 | the wall leaves a 5% margin on every side |
| Geometry.CenteredRect | public/planner.js:182-187 | the rectangle has the given size and is centred on the given point |
| Geometry.ElementsCentred | public/planner.js:162-253 | wall, screen, mount and niche are all centred on the canvas centre |
| Geometry.NicheContainsScreen | public/planner.js:219-253 | in horizontal orientation the drawn niche strictly surrounds the drawn screen |
| Geometry.VerticalNicheMissesScreen | public/planner.js:224-241 | in vertical orientation a screen more than 4 inches wider than tall sticks out of its unrotated niche at top and bottom |
| Geometry.MediaPlayerBelowScreen | public/planner.js:204-216 | the media player block is horizontally centred, scaled from its nested dimensions, with its top 10 px below the screen's bottom |
| Geometry.ReceptacleBelowScreen | public/planner.js:496-509 | the box is drawn at 1.5 times the scale and horizontally centred; its top is 16 inches below the unrotated screen bottom, which is the drawn bottom only in horizontal orientation |
| Geometry.ReceptacleSymbolsSymmetric | public/planner.js:521-537 | the two power outlets mirror each other about the box's centre line and the data outlet is centred on it |
| Geometry.ArrowShape | public/planner.js:361-375 | the chevron's tip is the given point and both wings trail 5 px behind it along the rotation direction, 5 px to either side |
| Canvas.Context.ClearRect | public/planner.js:111 | the clear is appended to the log, tagged with the current part |
| Canvas.VisibleAfterWipe | public/planner.js:111 | after a full clear followed by commands that do not clear, exactly those are visible, whatever came before |
| Planner.DrawArrow | public/planner.js:361-375 | appends one stroked chevron at the tip for the rotation |
| Planner.DrawHorizontalDimension | public/planner.js:306-330 | appends line, two arrows, label 20 px below the midpoint, and end ticks |
| Planner.DrawVerticalDimension | public/planner.js:332-359 | appends line, two arrows, rotated label 20 px left of the midpoint, and end ticks |
| Planner.DrawWall | public/planner.js:162-171 | appends the wall outline |
| Planner.DrawScreen | public/planner.js:173-217 | appends the screen block, then the mount outline only if a mount is selected, then the media player block only if one is selected |
| Planner.DrawMount | public/planner.js:189-201 | appends the mount outline exactly when a mount is selected, and nothing otherwise |
| Planner.DrawMediaPlayer | public/planner.js:203-216 | appends the media player block exactly when a player is selected, and nothing otherwise |
| Planner.DrawNiche | public/planner.js:219-253 | appends the niche fill and outline, sized from the selected media player and mount |
| Planner.DrawReceptacleBox | public/planner.js:496-553 | appends box fill and outline, the power outlets, the data outlet, the offset line and its 16" label |
| Planner.DrawDimensions | public/planner.js:255-304 | appends width, height and floor-to-centre dimensions (the last placed as written, from the floor line downward), then the depth dimension only when the niche depth is positive |
| Planner.UpdateDiagram | public/planner.js:109-150 | one redraw appends exactly `DiagramCommands` for the current selection and inputs |
| Planner.CurrentSelection | public/planner.js:113-114 | with every catalogue screen of positive size, any selected screen has positive size |
| Planner.DiagramLayers | public/planner.js:109-150 | a redraw starts with the clear and paints parts in the fixed order wall, niche, screen, mount, player, receptacle, width, height, floor, depth; each optional part is present exactly when its condition holds, and without a screen only the clear is present |
| Planner.DiagramWithoutScreen | public/planner.js:111-115 | a redraw is the clear alone exactly when no screen is selected |
| Planner.NoScreenChosen | public/planner.js:377-379 | an empty or missing screen drop-down selects no screen |
| Planner.RedrawReplacesPicture | public/planner.js:109-150 | whatever was drawn before, the visible picture after a redraw is exactly what it painted |
| Planner.RedrawIdempotent | public/planner.js:109-150 | redrawing twice with unchanged inputs shows the same picture as redrawing once |
| Planner.ScreenCommandsLayers | public/planner.js:173-217 | screen, mount, player in that order, mount and player present exactly when selected |
| Planner.DimensionsLayers | public/planner.js:255-304 | width, height, floor and depth dimensions in that order, depth present exactly when the niche depth is positive |
| Planner.SceneLayers | public/planner.js:132-149 | wall, niche, screen group, receptacle, dimensions in that order, each optional part present exactly when its condition holds |
| Planner.HorizontalDimensionShape | public/planner.js:306-330 | a positive-width horizontal dimension is its line, an arrow at each end toward the other end, an upright label 20 px below the midpoint, and a perpendicular 10 px tick centred on each end |
| Planner.VerticalDimensionShape | public/planner.js:332-359 | the same for a positive-height vertical dimension, with the label rotated and 20 px left of the midpoint |
| Planner.DimensionsFrameScreen | public/planner.js:269-302 | the width line is 30 px below the drawn screen and as long as it, the height line 30 px to its left and as tall as it, the depth line starts 10 px to its right at centre height; each label's value times the scale is its line's length |
| Planner.FloorDimensionAsWrittenLeavesSurface | public/planner.js:285-292 | as written the floor-to-centre line starts on the floor line at 0.9 of the height and ends at 1.3 of it, below the canvas |
| Planner.DrawnFloorLineLeavesSurface | public/planner.js:285-292 | in the dimensions a redraw paints, the floor-to-centre line runs from 0.9 to 1.3 of the canvas height, ending below the canvas |
| Planner.FloorDimensionSpansCentreToFloor | public/planner.js:285-292 | corrected, the line runs 60 px right of the screen from the centre line down to the floor line, inside the canvas, labelled with the floor-to-centre value |
| Planner.ReceptacleOffsetAnnotation | public/planner.js:539-552 | the offset line is 20 px left of the box, runs from the unrotated screen bottom to the box top, is 16 inches long at the base scale, and has its label at mid-height 25 px left of the box |

## Left out

- The server, its CSV parsing and HTTP routes, the client's fetch and drop-down population, and the toggle-button wiring. The catalogue is a value of type `Catalog` and the inputs are a `Form`.
- `public/client.js` is not part of this model.
- PDF export (`generatePDF`), canvas setup, device-pixel ratio and resize handling: these are browser and library I/O.
- `parseFloat` itself: a number field is given as `Option<real>`. NaN and Infinity are not modelled; `||` treats a NaN like a missing value, which `None` covers.
- Geometry.CalculateScale: requires a screen of positive width and height. The source divides by these and would produce Infinity or NaN for a zero. UpdateDiagram asks the same of every catalogue screen.
- Stroke and fill colours, dash patterns, line widths, fonts, text alignment, and `save`/`restore` are not recorded. A command keeps only its geometry and its part.
- Label formatting: a label is its numeric value plus its unit suffix, not the formatted JavaScript string.
- The receptacle's two power outlets share one path in the source, so the canvas also draws a segment joining the arcs. The model records them as one `Circles` command.
- Rotations use four fixed angles with exact sine and cosine. General trigonometry is not modelled.
- Unused parameters are dropped: `rightSide` of the dimension routines, and `floorToCenter`/`nicheDepth`/`scale` where a routine ignores them.
- The `!screen` guard at the top of `drawNiche` is not modelled, because `drawNiche` is only called with a screen.
- The `!equipmentData[category]` guard of `getSelectedEquipment` is not modelled, because a `Catalog` always has all four lists.
- JavaScript's `null` and `undefined` both become `None`.
- The source reads the mount and media player drop-downs again inside `drawScreen` and `drawNiche`. Nothing changes between these reads, so the redraw's specification uses one `Selection`.
- The depth dimension is labelled with the redraw's niche depth (the field, default 4), not with the computed niche depth; the model keeps this.
- `clearRect` appends a command to the log rather than erasing it. What is erased is expressed by `Visible`.

## Findings

| source | as written | input that shows it | evidently intended | confidence | as-written member | corrected member |
|---|---|---|---|---|---|---|
| public/planner.js:285-292 | The floor-to-centre dimension starts at the floor line (0.9 of the canvas height). It then runs a further 0.9 h minus h/2 downward, ending at 1.3 h, below the canvas. | Any canvas of positive height. At height 600 the line runs from y = 540 to y = 780. | A line from the screen's centre line down to the floor line. | not executed | Planner.DrawnFloorLineLeavesSurface | Planner.FloorDimensionSpansCentreToFloor |
