# ImageCanvas annotation model

A Dafny model of the `ImageCanvas` React component of a roof-annotation tool.
The user loads an image and clicks points on a 1000×500 canvas. The points
form the current drawing: a polygon with a colour. "Add Drawing" commits the
current drawing to the list of finalized drawings. The colour input recolours
the drawing in progress. "Reset Drawing" clears everything, and uploading a
new image installs it and then resets. On every state change a render effect
redraws the canvas: it clears it, draws the image, then draws each finalized
drawing's outline and dots, and finally the current drawing's.

The model has five modules:

- `CanvasTypes` (`types.dfy`): `Point`, `Drawing`, `Color`, `Image`, `Option`,
  the default colour `"#ff9a00"` and the blank drawing.
- `Store` (`store.dfy`): the updaters the handlers pass to the state setters
  (`WithPoint`, `WithoutPoints`, `WithColor`) and the component state
  `CanvasState`. It also has one function per transition, the `Action`/`Step`/`Run`
  event model, the invariant `Valid` (every finalized drawing has a point),
  the predicates that decide which buttons are shown, and lemmas about all of these.
- `Canvas2D` (`canvas2d.dfy`): the canvas primitives as abstract `Command`s.
  `Context2D` is a class that records every command issued to it.
- `Render` (`render.dfy`): the frame as a function of the state (`Frame`,
  built from `LinesCommands`, `DotCommands`, `DrawingCommands` and
  `FinalizedCommands`), and lemmas on its order and on its dot and outline counts.
  It also holds the imperative emitters `DrawLines`, `DrawDot` and `DrawDots`, which
  are proved to issue exactly those commands.
- `Component` (`image_canvas.dfy`): the class `ImageCanvas`. Its fields are
  `drawings`, `currentDrawing` and `image`. It has one method per handler,
  and each method is tied to the pure transition it performs. Its `Render`
  method is the render effect's `forEach` loops, proved to issue `Frame(State())`.
  `RoofScenario` runs a full session against the class.

Two behaviours of the code are modelled as written:

- The "Add Drawing", colour, "Export Image" and "Reset Drawing" controls are
  rendered only under `image &&` (ImageCanvas.tsx:193). The canvas's
  `onClick` (ImageCanvas.tsx:178) has no such gate. So a click is accepted
  even before an image has loaded. The point is stored, but nothing is drawn
  until an image arrives, because the render effect draws nothing without an
  image.
- `drawLines` moves to the first point and then draws a line to every point,
  the first included. It then closes back to the first point. The stroked
  vertex list is therefore `p0, p0, p1, …, p(n-1), p0`, of length n+2, with
  a zero-length first segment.

## Model

| member | source | states |
|---|---|---|
| Store.WithPoint | src/components/ImageCanvas.tsx:107-110 | the click updater appends the point after all earlier points, which keep their order; the colour is unchanged |
| Store.WithoutPoints | src/components/ImageCanvas.tsx:122-125 | the commit updater empties the points and keeps the colour |
| Store.WithColor | src/components/ImageCanvas.tsx:204-207 | the colour updater replaces the colour and keeps the points |
| Store.AddPoint | src/components/ImageCanvas.tsx:99-112 | a click appends exactly the clicked point at the end of the current drawing; earlier points, the colour, the finalized drawings and the image are unchanged |
| Store.Commit | src/components/ImageCanvas.tsx:118-127 | with no points nothing changes; otherwise the drawings grow by one, earlier entries are untouched, the new last entry is the prior current drawing, and the new current drawing is empty in the same colour |
| Store.SetColor | src/components/ImageCanvas.tsx:203-207 | a colour change replaces only the current drawing's colour; its points, the finalized drawings and the image are unchanged |
| Store.Reset | src/components/ImageCanvas.tsx:132-134 | from any state: no drawings, an empty current drawing in the default colour "#ff9a00", the image unchanged |
| Store.InstallImage | src/components/ImageCanvas.tsx:154-157 | a decoded upload becomes the image and the annotations are reset |
| Store.ShowImage | src/components/ImageCanvas.tsx:60-62 | the decoded default image becomes the image and the annotations are untouched |
| Store.ShowsImageControls | src/components/ImageCanvas.tsx:193 | the `image &&` gate: the commit, colour, export and reset controls exist only while an image is loaded |
| Store.ShowsResetButton | src/components/ImageCanvas.tsx:217 | the reset control is shown only when the image controls are |
| Store.Step | src/components/ImageCanvas.tsx:178-218 | each event goes to its handler: canvas click to AddPoint, "Add Drawing" to Commit, colour input to SetColor, "Reset Drawing" to Reset, the upload onload to InstallImage, the default onload to ShowImage; only the two onloads change the image, and each sets it to the image it loaded |
| Store.Run | src/components/ImageCanvas.tsx:178-218 | handling events one after another, each to completion; with no image onload in the sequence the image is unchanged, and otherwise the image is one that an onload in the sequence installed (which one: RunLastLoadWins) |
| Store.RunLastLoadWins | src/components/ImageCanvas.tsx:154-157 | when several images load (uploads here, or the default image at 60-62), the image after the whole sequence is the one from the last onload, since no later event touches it |
| Store.Valid | src/components/ImageCanvas.tsx:119-120 | the invariant kept by commit's guard: every finalized drawing has at least one point |
| Store.Offered | src/components/ImageCanvas.tsx:178-221 | which events the UI can produce in a state: canvas clicks and uploads always, "Add Drawing" and colour input only under the image gate, "Reset Drawing" only under its own condition |
| Store.OfferedResetChangesState | src/components/ImageCanvas.tsx:217-221 | whenever "Reset Drawing" is offered, pressing it discards a finalized drawing or a point of the current drawing |
| Store.ImageControlsStayShown | src/components/ImageCanvas.tsx:193 | once an image is loaded, no sequence of events hides the image controls again |
| Store.InitialIsValid | src/components/ImageCanvas.tsx:20-23 | the state on mount satisfies the invariant and shows no image controls |
| Store.StepPreservesValid | src/components/ImageCanvas.tsx:119-120 | every event keeps the invariant that each finalized drawing has at least one point |
| Store.RunPreservesValid | src/components/ImageCanvas.tsx:119-120 | every sequence of events keeps that invariant |
| Store.ClicksAppendInOrder | src/components/ImageCanvas.tsx:105-110 | after k clicks the current drawing's points are the earlier points followed by the click arguments in order; nothing else changes |
| Store.CommitTwiceIsCommitOnce | src/components/ImageCanvas.tsx:119-125 | pressing "Add Drawing" again right after a commit changes nothing |
| Store.ResetHidesResetButton | src/components/ImageCanvas.tsx:217-221 | after a reset the reset control is hidden, and the image controls are as before |
| Store.UploadShowsImageControls | src/components/ImageCanvas.tsx:193-221 | after an upload the image controls are shown and the reset control is not |
| Store.ClickOffersReset | src/components/ImageCanvas.tsx:217 | with an image loaded, a click always brings up the reset control |
| Render.LinesCommands | src/components/ImageCanvas.tsx:71-82 | fewer than 2 points give no path; n ≥ 2 points give one stroke of width 3 in the drawing's colour over n+2 vertices, starting and ending at p0, with all the points in order in between |
| Render.DrawingCommands | src/components/ImageCanvas.tsx:46-47 | one drawing issues one command per point plus one outline when it has two points or more, and every command is a stroke or a dot in the drawing's own colour |
| Render.FinalizedCommands | src/components/ImageCanvas.tsx:45-48 | the `forEach` over finalized drawings issues only strokes and dots |
| Render.Frame | src/components/ImageCanvas.tsx:38-53 | the render effect: nothing without an image; with one, the frame starts with the clear and then the image stretched to 1000×500, and ends with the current drawing's commands |
| Render.DotCommands | src/components/ImageCanvas.tsx:47 | one radius-3 dot per point, in point order, all in the drawing's colour |
| Render.CountsOfDots | src/components/ImageCanvas.tsx:47 | the dots of a drawing number exactly its points and contain no stroke |
| Render.CountsOfDrawing | src/components/ImageCanvas.tsx:45-48 | a drawing contributes one dot per point, and one outline exactly when it has two points or more |
| Render.CountsOfFinalized | src/components/ImageCanvas.tsx:45-48 | the finalized drawings contribute as many dots as they have points, and one outline per drawing with two points or more |
| Render.FrameCounts | src/components/ImageCanvas.tsx:38-53 | without an image a frame has no dots and no outlines; with one, its dots equal the total number of points over all drawings, and its outlines equal the number of drawings with at least two points |
| Render.FinalizedOfConcat | src/components/ImageCanvas.tsx:45-48 | drawing two lists of drawings in turn is drawing their concatenation |
| Render.FinalizedAppendOne | src/components/ImageCanvas.tsx:45-48 | one more finalized drawing adds its outline and then its dots at the end |
| Render.RenderLoopStep | src/components/ImageCanvas.tsx:45-48 | one pass of the `forEach` over finalized drawings extends the issued commands by exactly the next drawing's outline and dots |
| Render.FinalizedSplit | src/components/ImageCanvas.tsx:45-48 | the i-th finalized drawing is drawn after all earlier ones and before all later ones |
| Render.FrameOrder | src/components/ImageCanvas.tsx:43-50 | a frame is: clear, the image, the finalized drawings in sequence order (each one's outline then dots), and the current drawing last |
| Render.FrameEmptyIffNoImage | src/components/ImageCanvas.tsx:40 | the render effect draws nothing exactly when no image is loaded |
| Render.CommitKeepsFrame | src/components/ImageCanvas.tsx:118-127 | committing leaves the rendered frame unchanged |
| Render.SetColorKeepsFinalized | src/components/ImageCanvas.tsx:203-207 | after a colour change the image and all finalized drawings are drawn exactly as before; only the current drawing's commands change, now in the new colour |
| Render.ClickAddsOneDot | src/components/ImageCanvas.tsx:50 | with an image loaded, each click adds exactly one dot to the frame |
| Render.ResetButtonIffDotsDrawn | src/components/ImageCanvas.tsx:217 | in any state that keeps the invariant, the reset control is shown exactly when the frame draws at least one dot |
| Render.DrawLines | src/components/ImageCanvas.tsx:71-82 | the moveTo, the forEach of lineTo and the closing lineTo issue exactly the stroke that LinesCommands gives |
| Render.DrawDot | src/components/ImageCanvas.tsx:88-93 | issues one filled radius-3 circle at the point in the colour |
| Render.DrawDots | src/components/ImageCanvas.tsx:47 | the forEach over drawDot issues exactly DotCommands |
| Component.ImageCanvas.constructor | src/components/ImageCanvas.tsx:20-23 | on mount there are no drawings, a blank "#ff9a00" current drawing and no image |
| Component.ImageCanvas.OnDefaultImageLoad | src/components/ImageCanvas.tsx:60-62 | the default image is installed and the annotations are kept |
| Component.ImageCanvas.HandleMouseClick | src/components/ImageCanvas.tsx:99-112 | the fields change as AddPoint says, and the invariant is kept |
| Component.ImageCanvas.HandleAddNewDrawing | src/components/ImageCanvas.tsx:118-127 | the fields change as Commit says, and the invariant is kept |
| Component.ImageCanvas.HandleColorChange | src/components/ImageCanvas.tsx:203-207 | the fields change as SetColor says |
| Component.ImageCanvas.ResetCanvas | src/components/ImageCanvas.tsx:132-134 | the fields change as Reset says |
| Component.ImageCanvas.OnImageUpload | src/components/ImageCanvas.tsx:154-157 | the image is set and then the reset runs, as InstallImage says |
| Component.ImageCanvas.Render | src/components/ImageCanvas.tsx:38-53 | the render effect issues exactly Frame of the current state, so its output is determined by the state |
| Component.TriangleAndPointCounts | src/components/ImageCanvas.tsx:45-50 | a frame over one finalized triangle and a one-point current drawing has four dots and one outline |
| Component.RoofScenario | src/components/ImageCanvas.tsx:99-127 | upload, three clicks, commit, green, one click: one orange triangle is finalized, one green point is in progress, and the frame has four dots and one outline |

## Left out

- src/App.tsx, the export: it reads the canvas with `document.querySelector` and `toDataURL` and downloads the result. This is DOM I/O with no logic.
- Pixel output and the semantics of the Canvas 2D API are not modelled: `clearRect`, the scaling done by `drawImage`, and `arc` with its `100 * Math.PI` end angle, `stroke` and `fill`. The canvas is a recorder of abstract commands. The path state is collapsed: `beginPath`/`moveTo`/`lineTo` and the `lineWidth`, `strokeStyle` and `fillStyle` properties become one `Stroke` or `FillCircle` command.
- Point coordinates are JavaScript numbers (floats). They are modelled as integers, because the model does no arithmetic on them.
- The click-coordinate computation (ImageCanvas.tsx:102-104) uses `getBoundingClientRect` and `clientX`/`clientY` over floats. `HandleMouseClick` takes the resulting point as its argument.
- The canvas ref and the 2D context are assumed present (ImageCanvas.tsx:39-42, 100-101). The canvas element is always rendered, so after mount neither check fails.
- The direct redraw inside `resetCanvas` (ImageCanvas.tsx:135-142) is left out. It paints pixels that the next render effect repaints.
- Asynchronous image decoding is left out: `new Image()`, `onload`, `URL.createObjectURL`, and the race between overlapping uploads (ImageCanvas.tsx:56-65, 149-159). Only the continuations are modelled, each as one atomic transition: "image set" for the default image, and "image set, then reset" for an upload.
- `Run` ranges over every event sequence, including ones the UI cannot produce (a commit, colour change or reset without an image, a reset while its button is hidden). `Offered` states which events the UI offers; the lemmas over `Run` (RunPreservesValid, ClicksAppendInOrder, ImageControlsStayShown) hold for all sequences, so they hold for the offered ones too.
- Handlers run to completion one after another. The stale read of `drawings` in `handleAddNewDrawing` under React's batching is not modelled.
- The file-picker trigger (ImageCanvas.tsx:166-168), the JSX layout and styling, and the commented-out earlier render effect (ImageCanvas.tsx:25-36) are left out.
