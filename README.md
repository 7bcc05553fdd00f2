# FingerRender hand-gesture core in Dafny

FingerRender lets you shape architectural scenes in a browser with your hands. A MediaPipe hand
landmarker reports 21 landmarks per detected hand at every video frame, and a `GestureManager`
turns the first hand into three things:

- a continuous **parameter** in [0, 1], taken from the thumb-tip/index-tip distance
  (`1 - dist / 0.25`, clamped);
- a **snapshot** event, fired when a pinch (distance below 0.05) is held for more than 1000 ms;
- an **end-session** event, fired when an open palm (distance above 0.15, with the index tip
  above the middle, ring and little finger tips) is held for more than 2000 ms.

Each event comes from a small debounce machine: a flag, and the time the current hold started.
After an event fires, the machine pushes its start time 999 999 ms into the future. It does not
clear the flag.

The repository has two copies of the manager. The top-level one clamps with two `if`s. The one
under `src/managers` clamps with `Math.max`/`Math.min`, and its `processFrame` also hands every
frame's hand list to a results callback.

Scene D (KKA Hongkou SOHO) consumes the parameters of the left and right hands. Each hand's
parameter is routed to one of four named targets:

- the height of an extruded rounded-rectangle tower, 50 to 120;
- the tower's taper, drawn in by a vertex loop so that the top face is 0.7 to 1 of the base;
- the number of fins around the tower, 8 to 64;
- the fins' tilt, 0 to 45 degrees.

The model is split into these modules:

- `Landmarks`: the detector's results.
- `PinchMetric`: the distance-to-parameter map.
- `HoldTimer`: the debounce machine. It is proved once here and used by both gestures.
- `GestureCore`: the frame analysis as a pure function of the old state, and its laws per frame
  and over whole sessions.
- `GestureManagerRoot` and `GestureManagerSrc`: the two manager classes. Their methods update
  the five state fields in place and are proved equal to `GestureCore.Analyze`.
- `SceneD`: the parameter routing and numeric maps as functions. It also holds the in-place
  vertex loop on an `array`, and the fin group and the scene as classes.

Modelling decisions:

- **Distance.** `Math.sqrt` is not computed. The distance is an input `dist`, and
  `Landmarks.IsDistance` ties it to the first hand: `dist >= 0` and `dist * dist == dx*dx + dy*dy`.
  This determines `dist` uniquely (`Landmarks.SqrtUnique`).
- **Time.** Each frame takes a single time `now`, the frame's first `performance.now()`. The code
  reads the clock again for each elapsed-time test and for each push; the model uses `now` for all
  of these (see "Left out").
- **Callbacks.** A callback is either registered or null, modelled as a boolean. A step returns
  the sequence of callbacks it invoked, in order. A snapshot callback carries the parameter value
  it can observe.
- **Arithmetic.** Numbers are mathematical reals.

Facts of the code that the model keeps:

- A hold fires only when the elapsed time is strictly greater than 1000 ms (pinch) or 2000 ms
  (open palm) (GestureManager.js:126, 158). `HoldTimer.StrictThresholdScenario` shows a hold of
  exactly 1000 ms not firing.
- Re-arming after a firing is a push of the start time by 999 999 ms, not a latch. A pinch held
  continuously for more than about 16.7 minutes fires again (`HoldTimer.FiresAgainAfterPush`).
- Only the first hand, `landmarks[0]`, is read (GestureManager.js:98); the others are ignored
  (`GestureCore.OnlyFirstHandCounts`).
- A new fin stands at the origin with its default rotation until `_updateFinAngle` places it on
  the ring; `init` creates 16 fins and does not place them.

## Model

| member | source | states |
|---|---|---|
| Landmarks.SqrtUnique | GestureManager.js:103-106 | two non-negative numbers with equal squares are equal, so the distance `Math.sqrt` returns is a function of the first hand |
| Landmarks.CompareSquared | GestureManager.js:106-118 | comparing the distance with a non-negative threshold is the same as comparing its square with the threshold squared, in both directions, for `<` and `>` |
| PinchMetric.Param | GestureManager.js:110-114 | the parameter is always in [0, 1]; it is 1 at distance 0 or less, 0 at 0.25 or more, and `1 - dist / 0.25` in between |
| PinchMetric.ParamMaxMin | src/managers/GestureManager.js:100-103 | the `Math.max(0, Math.min(1, ...))` clamp yields a value in [0, 1] |
| PinchMetric.ClampsAgree | src/managers/GestureManager.js:100-103 | the two managers' clamps give the same parameter for every distance |
| PinchMetric.ParamAntitone | GestureManager.js:110-114 | moving the fingertips apart never increases the parameter |
| PinchMetric.ParamAtThresholds | GestureManager.js:110-118 | during a pinch (distance below 0.05) the parameter is above 0.8; with the distance above 0.15 it is below 0.4 |
| HoldTimer.Step | GestureManager.js:118-137 | one debounce step: the flag becomes the predicate; it fires exactly when the predicate held on this frame and the previous one and more than `holdMs` has passed since the start; firing pushes the start to `now + 999999`; a failing predicate keeps the start |
| HoldTimer.FirstFrameStartsTimer | GestureManager.js:119-122 | the first frame of a hold starts the timer at that frame's time and does not fire |
| HoldTimer.ReleaseRearms | GestureManager.js:135-137 | a frame where the predicate fails does not fire, and the next holding frame restarts the timer whatever the state was before |
| HoldTimer.Run | GestureManager.js:118-137 | the machine run over a sequence of frames reports one fired-or-not entry per frame |
| HoldTimer.QuietWhileHeld | GestureManager.js:123-126 | while the predicate holds and no frame is more than `holdMs` after the start, the state stays the same and nothing fires |
| HoldTimer.ReleasedNeverFires | GestureManager.js:135-137 | frames where the predicate fails never fire and leave the machine disarmed |
| HoldTimer.ShortHoldNeverFires | GestureManager.js:118-137 | a hold that starts from a disarmed machine, lasts no more than `holdMs` from its first frame and then ends, fires nothing |
| HoldTimer.LongHoldFires | GestureManager.js:123-133 | an armed hold that continues until some frame more than `holdMs` after the recorded start fires at least once |
| HoldTimer.HoldFires | GestureManager.js:118-133 | from a disarmed machine, holding until some frame more than `holdMs` after the hold's first frame fires at least once |
| HoldTimer.SuppressedAfterFiring | GestureManager.js:126-133 | after firing at `t`, a continued hold fires nothing more until more than `999999 + holdMs` after `t` |
| HoldTimer.FiresAgainAfterPush | GestureManager.js:126-133 | a hold that continues more than `999999 + holdMs` after a firing fires again: the push does not stop the machine for good |
| HoldTimer.StrictThresholdScenario | GestureManager.js:125-126 | with frames every 200 ms, a pinch begun at 400 ms does not fire at 1400 ms, which is exactly 1000 ms later; it fires at 1600 ms |
| GestureCore.Analyze | GestureManager.js:88-170 | one frame's analysis: the parameter is always in [0, 1], and no frame is due both a snapshot and an end-session |
| GestureCore.Dispatched | GestureManager.js:126-133 | a frame invokes at most one callback |
| GestureCore.NoHandFrame | GestureManager.js:89-95 | with no results, no `landmarks` or an empty hand list, the parameter becomes 0, both flags are cleared, both start times are kept and nothing fires |
| GestureCore.ParamOfFrame | GestureManager.js:108-114 | when a hand is present, the parameter is the clamped map of its thumb-index distance |
| GestureCore.OnlyFirstHandCounts | GestureManager.js:97-106 | two frames whose first hands are equal give the same analysis, whatever other hands they list |
| GestureCore.PredicatesOnSquaredDistance | GestureManager.js:103-106 | the pinch test holds exactly when the squared distance is below 0.0025; the distance exceeds 0.15 exactly when the squared distance exceeds 0.0225 |
| GestureCore.PinchClosesPalm | GestureManager.js:118-151 | a pinch frame is never an open-palm frame: it sets the pinch flag, clears the palm flag and cannot end the session |
| GestureCore.SnapshotRule | GestureManager.js:118-137 | a snapshot is due exactly when a pinch frame follows a pinch frame more than 1000 ms after the recorded start; then the start is pushed; a new pinch starts the timer now; a non-pinch frame clears the flag and keeps the start |
| GestureCore.EndSessionRule | GestureManager.js:147-169 | an end-session is due exactly when an open-palm frame follows an open-palm frame more than 2000 ms after the recorded start; then the start is pushed; a new open palm starts the timer now; otherwise the flag is cleared and the start kept |
| GestureCore.DueWithoutListener | GestureManager.js:126-133 | with no callback registered nothing is invoked but the start time is still pushed; the parameter a snapshot callback sees is above 0.8 |
| GestureCore.FrameIsTwoHoldSteps | GestureManager.js:116-169 | each gesture's part of the frame is exactly one debounce step on its own predicate and start time |
| GestureCore.RunFrames | GestureManager.js:73-85 | the analysis applied to frame after frame yields one snapshot entry and one end-session entry per frame |
| GestureCore.SessionIsTwoHoldRuns | GestureManager.js:116-169 | over a whole session, the snapshots and end-sessions are exactly the firings of two independent debounce machines: one fed each frame's pinch test and time, the other each frame's open-palm test and time, each starting from the manager's flag and start time; the machines' final states are the manager's final flags and start times |
| GestureCore.ShortPinchTakesNoSnapshot | GestureManager.js:118-137 | a pinch lasting no more than 1000 ms from its first frame, then released, takes no snapshot |
| GestureCore.LongPinchTakesSnapshot | GestureManager.js:118-133 | a pinch held until some frame more than 1000 ms after its first frame takes at least one snapshot |
| GestureCore.ShortOpenPalmKeepsSession | GestureManager.js:147-169 | an open palm lasting no more than 2000 ms from its first frame, then dropped, does not end the session |
| GestureCore.LongOpenPalmEndsSession | GestureManager.js:147-165 | an open palm held until some frame more than 2000 ms after its first frame ends the session at least once |
| GestureCore.NeverBothInOneFrame | GestureManager.js:116-169 | over a whole session, no frame has both a snapshot and an end-session |
| GestureManagerRoot.GestureManager.constructor | GestureManager.js:5-22 | the parameter is 0, both flags are off, both start times are 0 and no callback is registered |
| GestureManagerRoot.GestureManager.AnalyzeResults | GestureManager.js:88-170 | the five fields become the analysis of their old values; the callbacks invoked are the due events with a registered callback, at most one; the registrations are unchanged |
| GestureManagerSrc.Forwarding | src/managers/GestureManager.js:74-77 | the results callback receives all hands exactly when it is set and `results?.landmarks` is present, even when the list is empty, together with the manager state it observes |
| GestureManagerSrc.GestureManager.constructor | src/managers/GestureManager.js:5-21 | the same initial state as the top-level manager, with the results callback recorded |
| GestureManagerSrc.GestureManager.AnalyzeResults | src/managers/GestureManager.js:83-152 | the same frame analysis as the top-level manager, written with the `Math.max`/`Math.min` clamp |
| GestureManagerSrc.GestureManager.ProcessFrame | src/managers/GestureManager.js:66-79 | one detection pass: the fields become the analysis of their old values, the analysis's callbacks come first, then the hand list is forwarded and the results callback sees the state the analysis left; at most two callbacks |
| SceneD.GetParamValue | src/scenes/SceneD_KKAHongkouSOHO.js:249-259 | a target gets the sum of the parameters of the hands that name it, capped at 1, and 0 if no hand names it; one case for each combination of names |
| SceneD.ParamValueInUnit | src/scenes/SceneD_KKAHongkouSOHO.js:249-259 | with both hand parameters in [0, 1], every routed parameter is in [0, 1] |
| SceneD.TowerHeight | src/scenes/SceneD_KKAHongkouSOHO.js:152-153 | a parameter in [0, 1] gives an extrusion depth in [50, 120] |
| SceneD.TopScale | src/scenes/SceneD_KKAHongkouSOHO.js:155-156 | a taper in [0, 1] gives a top scale in [0.7, 1] |
| SceneD.FinAngleDeg | src/scenes/SceneD_KKAHongkouSOHO.js:210-211 | a parameter in [0, 1] gives a tilt in [0, 45] degrees |
| SceneD.FinCount | src/scenes/SceneD_KKAHongkouSOHO.js:141-142 | the fin count is the floor of `8 + v * 56`; a parameter in [0, 1] gives 8 to 64 fins |
| SceneD.ScaleFactorEnds | src/scenes/SceneD_KKAHongkouSOHO.js:185-187 | the scale factor is 1 at the base and `topScale` at the top |
| SceneD.ScaleFactorBetween | src/scenes/SceneD_KKAHongkouSOHO.js:185-187 | between base and top the factor lies between `topScale` and 1 and never grows with height |
| SceneD.TaperEnds | src/scenes/SceneD_KKAHongkouSOHO.js:182-192 | base vertices do not move, and top vertices have x and y scaled by exactly `topScale` |
| SceneD.TaperShrinks | src/scenes/SceneD_KKAHongkouSOHO.js:182-192 | a vertex between base and top never moves away from the axis, and never moves closer to it than the top face's scaling would take it |
| SceneD.TaperVertices | src/scenes/SceneD_KKAHongkouSOHO.js:181-192 | the position loop, in place: every vertex becomes its tapered self |
| SceneD.NewFins | src/scenes/SceneD_KKAHongkouSOHO.js:95-104 | `count` fresh fins, none for a negative count, with consecutive new serials, each standing at the origin with its default rotation and unscaled |
| SceneD.DisposedAreOldChildren | src/scenes/SceneD_KKAHongkouSOHO.js:84-88 | the pop loop disposes every old child exactly once, last first |
| SceneD.PlacedReplacesTilt | src/scenes/SceneD_KKAHongkouSOHO.js:240-242 | `lookAt` resets the orientation before the tilt is added, so a new angle replaces the old one rather than accumulating |
| SceneD.SlotsSpreadEvenly | src/scenes/SceneD_KKAHongkouSOHO.js:220-223 | the slots increase strictly with the fin's index and lie in [0, 1) |
| SceneD.FinGroup.CreateFins | src/scenes/SceneD_KKAHongkouSOHO.js:82-105 | every old child is disposed, last first, and the children become `count` new fins whose meshes are newer than any old one |
| SceneD.FinGroup.UpdateFinCount | src/scenes/SceneD_KKAHongkouSOHO.js:201-207 | with the right number of fins nothing changes; otherwise the group is rebuilt, disposing every old fin and handing out new serials; afterwards there are `count` fins, or none for a negative count |
| SceneD.FinGroup.UpdateFinAngle | src/scenes/SceneD_KKAHongkouSOHO.js:209-244 | fin `i` of `n` keeps its mesh and is moved onto the ring at slot `i / n`, tilted by `45 * finVal` degrees and scaled to height 8 (nothing for an empty group); no fin is created or disposed |
| SceneD.Scene.Init | src/scenes/SceneD_KKAHongkouSOHO.js:27-63 | after `init`, the tower is extruded to depth 80 and untapered, and the group holds 16 new fins, all still at the origin |
| SceneD.Scene.UpdateTowerMesh | src/scenes/SceneD_KKAHongkouSOHO.js:149-199 | the tower takes the new height and top scale, and its geometry becomes the new buffer with every vertex tapered |
| SceneD.Scene.Update | src/scenes/SceneD_KKAHongkouSOHO.js:107-147 | each target gets its routed parameter: the tower takes the new height and top scale and its new buffer is tapered vertex by vertex; the fin group keeps its fins when it already has the new count and is rebuilt otherwise (with the old fins disposed, last first, and new serials handed out), and then every fin is placed on the ring at its slot with the routed tilt; with hand parameters in [0, 1] the height is in [50, 120], the top scale in [0.7, 1] and there are 8 to 64 fins |

## Left out

- Camera set-up, loading the MediaPipe bundle and model, and `detectForVideo`: these are browser and network I/O. The detector's output is an input of each frame.
- The `requestAnimationFrame` loop, and the `if (!this.handLandmarker) return` guard in `processFrame`: `ProcessFrame` models one pass after the model has loaded, and `RunFrames` models the sequence of passes.
- `performance.now()`: the code reads the clock again for each elapsed-time test, and again for the push after a callback has returned. The callbacks can block: the end-session handler calls `alert` (main.js:61, src/main.js:82) and the snapshot handler encodes a PNG (main.js:45). The real pushed start can then be seconds after the frame's time. The model pushes from the frame's `now`, which is a lower bound on the real push.
- HoldTimer.SuppressedAfterFiring: the quiet period after a firing is measured from the frame's time, so it is a lower bound on the real one, which starts when the callback returns.
- HoldTimer.FiresAgainAfterPush: the time after which the hold fires again is measured from the frame's time, so it is a lower bound for the same reason.
- `Math.sqrt` and IEEE-754 floating point: the distance is an input tied to the first hand by its square, and all arithmetic is over exact reals.
- Landmarks.IsDistance: requires at least 21 landmarks in the first hand; the detector always delivers 21. With fewer than 9 the code throws at GestureManager.js:103 (src/managers/GestureManager.js:95). With 9 to 20 it throws only when the open-palm test reaches a missing tip after `dist > 0.15` holds (GestureManager.js:147-151), and otherwise analyses the frame. The model excludes all such frames.
- Callbacks' own effects (the screenshot, the session end, visualisation), and exceptions they throw: when a callback throws in the code, the start-time push after it is skipped and the detection loop stops. The model assumes callbacks return normally.
- Geometry and rendering in Three.js: the rounded-rectangle shape, `ExtrudeGeometry` (its position buffer is an input), materials, `computeVertexNormals`, `needsUpdate`, the disposal of the old tower geometry in `_updateTowerMesh`, the cos/sin fin positions, `lookAt` and `degToRad`. A fin is modelled by its pose (at the origin, or on the ring at a slot with a tilt in degrees) and its height scale, and fin disposal by recording the disposed fins.
- `SceneD.Scene.UpdateTowerMesh`, `SceneD.TaperVertices`, `SceneD.Scene.Update`: require a non-zero tower height. The code divides by it, and a zero height arises only for a height parameter of -5/7; in JavaScript that would produce `NaN`/`Infinity` positions rather than an error.
- The `if (!this.towerMesh) return` guard of `_updateTowerMesh`, and `dispose`: the model starts from an initialised scene.
- Parameter names are strings. A name that is `undefined` in the code is any string that matches no target.
- `SceneManager`, the two `main.js` files, `SnapshotManager`, `HandVisualizer`, `DragManager` and the other scenes are not part of this model.
