# CleanObject3D game rules in Dafny

CleanObject3D is a small Unity cleaning game. The player looks into an isometric
room, turns it corner by corner with a horizontal swipe, and cleans dirt:

- by swiping across a dirt tile, which shrinks and disappears;
- by rubbing a dirt mask with a brush until enough of it is erased.

Objects can be picked up for a close-up inspection. A clean-mode button locks
the camera so that drags clean instead of panning. A level timer rates each
finished level with one to three stars and pays coins. A level manager lays a
fresh grid of dirt tiles on the floor for every level.

This project models the rules of those scripts, one Dafny module per script:

| module | script | form |
|---|---|---|
| `BrushDirt` | `BrushErasableDirt` | class over a texel `array<real>`; the stroke and sampling loops |
| `Cleaner` | `DirtCleaner` | class with the dirt list, the cleaned set and the drag state; the pick loops |
| `Room` | `RoomSetup` | class with the corner, camera target and wall flags (`array<bool>`); pure `Snap` and `SafeDiv` |
| `Inspection` | `ObjectInspectionSystem` | state machine class; the hide and show loops over the renderer flags |
| `Timer` | `LevelTimer` | class; `PlayerPrefs` is a `map<string, int>` |
| `Levels` | `LevelManager` | class; the row-major spawn loops; pure grid arithmetic |
| `CleanCamera` | `CleanModeCamera` | class that writes the cleaner's flags; pure zoom and clamp rules |
| `Transparency` | `ObjectTransparencyOnTouch` | class over the material map and the collider arrays |
| `Painter` | `DirtPainter` | pure decision functions |

`Engine` holds the Unity helpers the scripts rely on:

- `Mathf.Clamp`, which tests the lower bound first;
- `Mathf.Clamp01`;
- `Mathf.Lerp`, whose parameter is clamped to [0,1];
- `Mathf.Round`, which rounds half to even;
- C#'s 32-bit `int` wrap-around (`Wrap32`);
- the vector records and touch phases.

The engine is replaced by parameters:

- Physics raycasts and overlap queries become hit lists or optional hits.
- "Pointer over UI" checks become booleans. So does the touch phase and frame data.
- `Time.deltaTime`, `Time.time` and `Time.frameCount` become numbers.
- `ScreenToWorldPoint` becomes a function parameter.
- Fetching `controlsEnabled` by reflection becomes an `Option<bool>`, with `None` meaning the field does not exist.
- DOTween animations become explicit completion methods: `CompleteCleanTween`, `CompleteEnter` and `CompleteExit`.
- Floats are modelled as reals.

## Model

| member | source | states |
|---|---|---|
| `BrushDirt.BrushPixelSize` | Assets/Scripts/BrushErasableDirt.cs:192-193 | the brush is at least 10 texels across; it is the rounded `brushSize·res/10` unless that is smaller |
| `BrushDirt.PixelCoord` | Assets/Scripts/BrushErasableDirt.cs:120-125 | the texel coordinate always lies in 0..res-1, and equals the rounded `u·res` whenever that is already in range |
| `BrushDirt.DarkenBounds` | Assets/Scripts/BrushErasableDirt.cs:216-221 | for alpha in [0,1], a non-negative texel never gets lighter, keeps at least 70% of its value, and stays non-negative |
| `BrushDirt.StrokeEffect` | Assets/Scripts/BrushErasableDirt.cs:204-222 | only texels with an offset in [−s/2, s/2) on both axes, inside the texture and with normalised distance ≤ 1 change; every other texel keeps its value, and changed ones are darkened |
| `BrushDirt.StrokeKeepsUnit` | Assets/Scripts/BrushErasableDirt.cs:220-222 | a stroke keeps a mask with values in [0,1] inside [0,1] |
| `BrushDirt.SampledDarkBound` | Assets/Scripts/BrushErasableDirt.cs:252-256 | the sampled count of dark texels is at most one in four of the texels scanned, rounded up |
| `BrushDirt.ProgressAtMostOne` | Assets/Scripts/BrushErasableDirt.cs:252-261 | when the texel count is a multiple of 4, four times the dark sample count is at most the total, so the reported ratio is at most 1 |
| `BrushDirt.DarkerMaskCountsMore` | Assets/Scripts/BrushErasableDirt.cs:252-256 | a mask darker at every texel has at least as many dark samples |
| `BrushDirt.StrokeNeverLowersProgress` | Assets/Scripts/BrushErasableDirt.cs:204-222 | a stroke never lowers the progress estimate of a mask with values in [0,1] |
| `BrushDirt.Ratio` | Assets/Scripts/BrushErasableDirt.cs:261 | `count·4/total` is non-negative, and at most 1 when `4·count ≤ total` |
| `BrushDirt.BrushErasableDirt.constructor` | Assets/Scripts/BrushErasableDirt.cs:51-61 | a fresh `res × res` mask filled white, nothing erased, not cleaned |
| `BrushDirt.BrushErasableDirt.GetCleanProgress` | Assets/Scripts/BrushErasableDirt.cs:290-293 | the reported progress is non-negative, and at most 1 for an even resolution such as the default 256 |
| `BrushDirt.BrushErasableDirt.IsFullyCleaned` | Assets/Scripts/BrushErasableDirt.cs:295-298 | the flag is set exactly when the completion handling has run, and then it has run once |
| `BrushDirt.BrushErasableDirt.DrawBrush` | Assets/Scripts/BrushErasableDirt.cs:187-235 | the nested loops leave the mask equal to `Stroked` of the old mask, with the brush size of `BrushPixelSize` |
| `BrushDirt.BrushErasableDirt.CountSampledDark` | Assets/Scripts/BrushErasableDirt.cs:249-256 | the strided loop counts exactly the sampled texels 0, 4, 8, … whose red value is below 0.5 |
| `BrushDirt.BrushErasableDirt.CheckCleanProgress` | Assets/Scripts/BrushErasableDirt.cs:237-270 | the estimate changes only on frames that are a multiple of 10, and then becomes the sampled ratio; the flag goes from false to true once, when the estimate reaches the threshold; the completion handling runs only on that transition |
| `BrushDirt.BrushErasableDirt.OnFullyCleaned` | Assets/Scripts/BrushErasableDirt.cs:272-288 | the completion handling is counted once per call |
| `BrushDirt.BrushErasableDirt.EraseBrushStroke` | Assets/Scripts/BrushErasableDirt.cs:96-134 | a cleaned mask, a missing hit, or a texture coordinate outside [0,1]² changes nothing; otherwise one stroke at the clamped texel, then the progress check |
| `Cleaner.LastEligibleSpec` | Assets/Scripts/DirtCleaner.cs:143-151 | the 2D scan finds nothing exactly when no overlap is a registered, uncleaned dirt; otherwise it returns the last such overlap |
| `Cleaner.NearestSpec` | Assets/Scripts/DirtCleaner.cs:154-166 | the 3D scan finds nothing exactly when no hit is eligible; otherwise it returns an eligible hit no farther than any other, and strictly nearer than every eligible hit listed before it |
| `Cleaner.PickOnlyEligible` | Assets/Scripts/DirtCleaner.cs:138-168 | the pick is always a registered, uncleaned dirt taken from one of the hit lists; there is no pick exactly when neither list has an eligible hit |
| `Cleaner.TwoDFirst` | Assets/Scripts/DirtCleaner.cs:143-151 | an eligible 2D overlap wins over every 3D hit |
| `Cleaner.AddedSpec` | Assets/Scripts/DirtCleaner.cs:171-174 | after adding, the dirt is in the list; the list gains one copy only if the dirt was absent; a duplicate-free list stays duplicate-free; adding twice is adding once |
| `Cleaner.RemoveFirstSpec` | Assets/Scripts/DirtCleaner.cs:178 | removing takes out exactly one copy of the dirt (none if absent), and the list shrinks by one exactly when it was present |
| `Cleaner.RemoveFirstSplit` | Assets/Scripts/DirtCleaner.cs:178 | the list is what removing keeps plus the one copy of the dirt it took (no copy when absent); an absent dirt leaves the list as it was |
| `Cleaner.RemoveFirstNoDup` | Assets/Scripts/DirtCleaner.cs:178 | in a duplicate-free list the removed dirt is gone for good, and the list stays duplicate-free |
| `Cleaner.CountOne` | Assets/Scripts/DirtCleaner.cs:173 | every element of a duplicate-free list occurs exactly once |
| `Cleaner.RemoveAfterAdd` | Assets/Scripts/DirtCleaner.cs:171-180 | removing a dirt that was just added to a list without it gives the list back |
| `Cleaner.CompletionAsWrittenMissesTarget` | Assets/Scripts/DirtCleaner.cs:123-127 | as written, the completion destroys nothing when the drag was reset, or a different dirt pressed since; in neither case the swiped dirt |
| `Cleaner.CompletionTargetAsWritten` | Assets/Scripts/DirtCleaner.cs:123-127 | the callback destroys something exactly when `destroyAfterClean` is set and `activeDirt` is not null when the tween ends, and then it is that object |
| `Cleaner.ReleasedSpec` | Assets/Scripts/DirtCleaner.cs:110-135 | a release ends the drag with no active dirt, and cleans at most one dirt not cleaned before, the pressed one, starting exactly its tween |
| `Cleaner.MouseStepSpec` | Assets/Scripts/DirtCleaner.cs:61-79 | from a state where `dragging` agrees with `activeDirt`, a mouse frame keeps that agreement and cleans at most one new dirt, starting exactly its tween |
| `Cleaner.TouchStepSpec` | Assets/Scripts/DirtCleaner.cs:81-107 | from a state where `dragging` agrees with `activeDirt`, a touch frame keeps that agreement and cleans at most one new dirt, starting exactly its tween |
| `Cleaner.SwipeGesture` | Assets/Scripts/DirtCleaner.cs:61-79 | a press then a release clean the picked dirt, and start its tween, exactly when a dirt was picked, its object has not been destroyed, and the release is at least the threshold away horizontally; otherwise nothing is cleaned; the drag is over afterwards |
| `Cleaner.Live` | Assets/Scripts/DirtCleaner.cs:112 | a reference compares unequal to null exactly when it names an object that has not been destroyed, and then it is unchanged |
| `Cleaner.DestroyedDirtIsNotCleaned` | Assets/Scripts/DirtCleaner.cs:110-135 | a release whose pressed dirt has been destroyed since the press only ends the drag: nothing is cleaned and no tween starts |
| `Cleaner.TapNeverCleans` | Assets/Scripts/DirtCleaner.cs:66-78 | with a positive threshold, a press and a release in the same frame never clean anything |
| `Cleaner.DirtCleaner.constructor` | Assets/Scripts/DirtCleaner.cs:11-31 | the initial state: gating on, nothing cleaned, no drag |
| `Cleaner.DirtCleaner.PickDirtUnderPointer` | Assets/Scripts/DirtCleaner.cs:138-168 | the two loops with early return compute exactly `Pick`: the last eligible 2D overlap, else the nearest eligible 3D hit |
| `Cleaner.DirtCleaner.TryCleanBySwipe` | Assets/Scripts/DirtCleaner.cs:110-129 | with no active dirt, one whose object has been destroyed (so that `activeDirt == null` holds), or one already cleaned, nothing changes; otherwise the dirt is added to `cleaned` and its shrink animation starts exactly when the horizontal distance reaches the threshold |
| `Cleaner.DirtCleaner.ResetDrag` | Assets/Scripts/DirtCleaner.cs:131-135 | there is no drag and no active dirt afterwards |
| `Cleaner.DirtCleaner.Press` | Assets/Scripts/DirtCleaner.cs:92-96 | a press saves its position and picks the dirt under it; `dragging` holds exactly when a dirt was picked |
| `Cleaner.DirtCleaner.Release` | Assets/Scripts/DirtCleaner.cs:98-104 | a release cleans the active dirt, when its object still exists and it is not yet cleaned, exactly when the swipe is long enough, then ends the drag |
| `Cleaner.DirtCleaner.HandleMouse` | Assets/Scripts/DirtCleaner.cs:61-79 | the pointer state becomes `MouseStep` of the old one: over UI nothing changes; a press saves its position and the pick, dragging exactly when a dirt was picked; a button-up during a drag swipes and then resets the drag, and one without a drag changes nothing; the dirt list is never touched |
| `Cleaner.DirtCleaner.HandleTouch` | Assets/Scripts/DirtCleaner.cs:81-107 | the pointer state becomes `TouchStep` of the old one: no touch, a first touch over UI, Moved or Stationary change nothing; Began presses; Ended and Canceled during a drag swipe and reset, and without a drag change nothing |
| `Cleaner.DirtCleaner.Update` | Assets/Scripts/DirtCleaner.cs:39-58 | when cleaning waits for a locked camera and the controller reports controls enabled, the frame only resets the drag; otherwise a desktop build takes the mouse step and any other build the touch step; either way `dragging` keeps agreeing with `activeDirt` and at most one dirt not cleaned before is cleaned, with exactly its tween started |
| `Cleaner.DirtCleaner.CompleteCleanTween` | Assets/Scripts/DirtCleaner.cs:121-127 | as written: the oldest shrink tween ends, and with `destroyAfterClean` set the object destroyed is the one `activeDirt` names at that moment, nothing when it is null or already destroyed |
| `Cleaner.DirtCleaner.CompleteCleanTweenIntended` | Assets/Scripts/DirtCleaner.cs:121-127 | corrected: the oldest shrink tween ends, and the dirt it shrank is destroyed exactly when `destroyAfterClean` is set |
| `Cleaner.DirtCleaner.SwipeThenComplete` | Assets/Scripts/DirtCleaner.cs:98-127 | as written, a cleaning release followed by the end of its tween leaves the swiped dirt cleaned but destroys nothing |
| `Cleaner.DirtCleaner.SwipeThenCompleteIntended` | Assets/Scripts/DirtCleaner.cs:98-127 | corrected: the same release and tween end leave the swiped dirt cleaned, and destroyed exactly when `destroyAfterClean` is set |
| `Cleaner.DirtCleaner.AddDirt` | Assets/Scripts/DirtCleaner.cs:171-174 | the list becomes `Added`: the dirt is in it, and a duplicate-free list stays duplicate-free |
| `Cleaner.DirtCleaner.RemoveDirt` | Assets/Scripts/DirtCleaner.cs:176-180 | the first occurrence leaves the list and the dirt leaves `cleaned`; in a duplicate-free list it is gone entirely |
| `Room.NextIndex` | Assets/Scripts/RoomSetup.cs:327 | the next corner is in 0..3, wrapping from 3 to 0 |
| `Room.PrevIndex` | Assets/Scripts/RoomSetup.cs:336 | the previous corner is in 0..3, wrapping from 0 to 3 |
| `Room.CornerRoundTrips` | Assets/Scripts/RoomSetup.cs:327-336 | next then previous, or the reverse, is the identity; four turns are a full circle; a turn always changes the corner |
| `Room.CameraTarget` | Assets/Scripts/RoomSetup.cs:241-257 | the target is the camera height, with ±distance on x and z in the fixed sign pattern of each corner |
| `Room.HiddenWallsFaceCamera` | Assets/Scripts/RoomSetup.cs:275-293 | with a positive distance, the walls a corner hides are exactly the walls on the camera's side of the room |
| `Room.TwoWallsHidden` | Assets/Scripts/RoomSetup.cs:275-293 | every corner's table entry hides exactly two walls |
| `Room.SnapCoord` | Assets/Scripts/RoomSetup.cs:365-372 | with snapping off or a step ≤ 0 the coordinate is unchanged; otherwise it is a multiple of the step within half a step of the input |
| `Room.Snap` | Assets/Scripts/RoomSetup.cs:367 | `Snap` returns its input unchanged when snapping is off or the step is ≤ 0 |
| `Room.SnapIdempotent` | Assets/Scripts/RoomSetup.cs:365-372 | snapping twice is snapping once |
| `Room.SafeDiv` | Assets/Scripts/RoomSetup.cs:453-456 | the divisor actually used never has magnitude below 1e-6, and it equals `b` whenever `b` is large enough |
| `Room.TriedTurnsIffFires` | Assets/Scripts/RoomSetup.cs:156-167 | a swipe turns the camera, always to a different corner, exactly when the cooldown has passed and the drag is at least the threshold wide; otherwise nothing changes |
| `Room.SwipeGesture` | Assets/Scripts/RoomSetup.cs:119-167 | outside an inspection, a press then a release turn to the next corner for a wide enough drag to the right, to the previous one for such a drag to the left, nowhere otherwise (or inside the cooldown), and end the swipe |
| `Room.SwipeBackRestores` | Assets/Scripts/RoomSetup.cs:156-167 | a swipe to the right and, after the cooldown, one to the left bring the camera back to the corner it started at |
| `Room.CooldownBlocksSecond` | Assets/Scripts/RoomSetup.cs:158-159 | with a positive cooldown, a second swipe at the same moment changes nothing |
| `Room.RoomSetup.constructor` | Assets/Scripts/RoomSetup.cs:113-117 | the settings are stored; corner 0, the camera not moving, no swipe, and the last swipe long ago |
| `Room.RoomSetup.SetCameraTarget` | Assets/Scripts/RoomSetup.cs:237-262 | the target becomes `CameraTarget` of the current corner, and the camera starts moving |
| `Room.RoomSetup.UpdateWalls` | Assets/Scripts/RoomSetup.cs:264-294 | every present wall is active, except that with hiding on the corner's two walls are inactive; a missing wall is untouched |
| `Room.RoomSetup.NextCorner` | Assets/Scripts/RoomSetup.cs:325-332 | the corner advances by one mod 4, and the target and the walls follow the new corner |
| `Room.RoomSetup.PrevCorner` | Assets/Scripts/RoomSetup.cs:334-341 | the corner goes back by one mod 4, and the target and the walls follow the new corner |
| `Room.RoomSetup.SetCorner` | Assets/Scripts/RoomSetup.cs:343-350 | the corner is the request clamped into 0..3, and the target and the walls follow it |
| `Room.RoomSetup.TrySwipe` | Assets/Scripts/RoomSetup.cs:156-167 | the swipe state becomes `Tried` of the old one; when the corner stays, the camera target, its moving flag and the walls are unchanged; when it changes, the camera heads for the new corner's target and the walls follow that corner |
| `Room.RoomSetup.HandleSwipeInput` | Assets/Scripts/RoomSetup.cs:119-154 | the swipe state becomes `SwipeStep` of the frame's event (button 0 or the first touch: a press, or a release that is Ended or Canceled for a touch); the target and the walls follow the corner exactly when it changes |
| `Inspection.RotateComposes` | Assets/Scripts/ObjectInspectionSystem.cs:336-347 | two drags rotate the target as far as one drag by their summed movement |
| `Inspection.RotateBackRestores` | Assets/Scripts/ObjectInspectionSystem.cs:336-347 | a drag back by the same movement restores the rotation, no movement does not rotate, and z never changes |
| `Inspection.MouseDragFollowsPointer` | Assets/Scripts/ObjectInspectionSystem.cs:272-294 | a press at p held through q to r rotates the target by the total movement from p to r, whatever the path; the release ends the drag without rotating further |
| `Inspection.TouchDragFollowsPointer` | Assets/Scripts/ObjectInspectionSystem.cs:296-334 | a touch beginning at p and moving through q to r rotates the target by the total movement from p to r; Ended stops the drag without rotating further |
| `Inspection.HiddenUpToSpec` | Assets/Scripts/ObjectInspectionSystem.cs:393-411 | the hidden list records exactly the renderers the rule hides, each once, in scene order |
| `Inspection.HideShowRoundTrip` | Assets/Scripts/ObjectInspectionSystem.cs:391-432 | hiding then showing, with nothing destroyed in between, turns back on every renderer that was hidden and leaves the rest as they were; so every renderer gets its old `enabled` flag back exactly when every hidden renderer had been enabled |
| `Inspection.InstanceSlot.constructor` | Assets/Scripts/ObjectInspectionSystem.cs:88-96 | the singleton slot starts empty |
| `Inspection.InstanceSlot.Awake` | Assets/Scripts/ObjectInspectionSystem.cs:88-96 | the first instance claims the slot; a second one destroys its own object and the slot keeps the first |
| `Inspection.ObjectInspectionSystem.OverlayRoundTrip` | Assets/Scripts/ObjectInspectionSystem.cs:172-254 | a full enter and exit give the canvas back the state it had, and leave the panel hidden |
| `Inspection.ObjectInspectionSystem.constructor` | Assets/Scripts/ObjectInspectionSystem.cs:98-102 | the normal view, no transition, an empty hidden list, and the back button hidden |
| `Inspection.ObjectInspectionSystem.HideSceneObjects` | Assets/Scripts/ObjectInspectionSystem.cs:391-419 | the loop clears the list first, then disables and records exactly the renderers the hide rule selects |
| `Inspection.ObjectInspectionSystem.ShowSceneObjects` | Assets/Scripts/ObjectInspectionSystem.cs:421-439 | every recorded renderer whose object still exists is enabled again, and the list is emptied |
| `Inspection.ObjectInspectionSystem.InspectObject` | Assets/Scripts/ObjectInspectionSystem.cs:158-213 | ignored for no object or during a transition; otherwise the state is Inspecting and a transition runs at once, the pose is saved, and the scene and UI are hidden |
| `Inspection.ObjectInspectionSystem.CompleteEnter` | Assets/Scripts/ObjectInspectionSystem.cs:203-210 | the enter animation ends: the transition is over, the state stays Inspecting, the back button is shown, and the start event fires |
| `Inspection.ObjectInspectionSystem.ExitInspection` | Assets/Scripts/ObjectInspectionSystem.cs:216-229 | ignored without a current object or during a transition; otherwise the exit animation heads for exactly the pose saved on entry |
| `Inspection.ObjectInspectionSystem.CompleteExit` | Assets/Scripts/ObjectInspectionSystem.cs:231-255 | the exit animation ends: back to the normal view with no current object; the hidden renderers and the UI come back, and the end event fires |
| `Inspection.ObjectInspectionSystem.RotateByDelta` | Assets/Scripts/ObjectInspectionSystem.cs:336-347 | without an object nothing changes; with one the target becomes `Rotated` by the drag: x follows the vertical movement only if `canRotateX`, y the opposite of the horizontal movement only if `canRotateY`, and z never changes |
| `Inspection.ObjectInspectionSystem.HandleMouseRotation` | Assets/Scripts/ObjectInspectionSystem.cs:272-294 | the drag state becomes `MouseDrag` of the old one: over UI nothing; a press starts a drag at the pointer; a held button during a drag rotates the target by the movement since the last frame; a release ends the drag |
| `Inspection.ObjectInspectionSystem.HandleTouchRotation` | Assets/Scripts/ObjectInspectionSystem.cs:296-334 | the drag state becomes `TouchDrag` of the old one: a first touch over UI is ignored; with one touch, Began starts a drag, Moved during one rotates the target by the movement since the last frame, Ended and Canceled stop it; any other touch count ends the drag |
| `Inspection.ObjectInspectionSystem.HandleObjectSelection` | Assets/Scripts/ObjectInspectionSystem.cs:120-155 | a press not over UI that hits an inspectable object outside a transition inspects it: it becomes current, its pose and parent are saved, the scene is hidden (when asked), the overlay enters, and the enter tween starts towards the inspection point; any other frame changes none of these fields |
| `Inspection.ObjectInspectionSystem.Update` | Assets/Scripts/ObjectInspectionSystem.cs:104-117 | selection runs only in the normal view, rotation only while inspecting, and neither during a transition; a normal-view frame inspects the object hit exactly when the press selects it, and otherwise leaves the object, the state and the scene alone; an inspecting frame outside a transition leaves the scene alone and steps the drag state by `MouseDrag` on desktop builds and `TouchDrag` elsewhere |
| `Timer.CalculateStars` | Assets/Scripts/LevelTimer.cs:92-97 | always 1, 2 or 3: three exactly within `timeFor3Stars`, two exactly within `timeFor2Stars` but not the former, otherwise one |
| `Timer.GetAfterSet` | Assets/Scripts/LevelTimer.cs:106-117 | reading the key just written gives the value written, whatever the default; writing one key leaves every other key reading as before |
| `Timer.StarsNonIncreasing` | Assets/Scripts/LevelTimer.cs:94-96 | taking longer never earns more stars |
| `Timer.FasterEarnsMore` | Assets/Scripts/LevelTimer.cs:92-104 | when the pay does not fall with the rating, a slower finish never pays more coins, and a finish within the three-star time pays the three-star amount |
| `Timer.SliderValue` | Assets/Scripts/LevelTimer.cs:73-75 | the slider is in [0,1]; it is the elapsed fraction of `timeFor2Stars` while that is positive and not yet reached, and full afterwards |
| `Timer.SliderMonotone` | Assets/Scripts/LevelTimer.cs:73-75 | the slider never moves back as time goes on |
| `Timer.LevelTimer.constructor` | Assets/Scripts/LevelTimer.cs:36-53 | the clock starts at zero and runs; the coins text shows the stored total; the stars and the next button are hidden |
| `Timer.LevelTimer.UpdateUI` | Assets/Scripts/LevelTimer.cs:63-77 | the text shows the whole seconds and the slider its `SliderValue`, each only when that UI element is set |
| `Timer.LevelTimer.Update` | Assets/Scripts/LevelTimer.cs:55-61 | while running and not finished the clock advances by the frame time, and the text and the slider then show the new elapsed time (each when set); otherwise nothing changes |
| `Timer.LevelTimer.UpdateCoinsUI` | Assets/Scripts/LevelTimer.cs:114-119 | the coins text shows the stored total, 0 when none is stored |
| `Timer.LevelTimer.AddCoinsForStars` | Assets/Scripts/LevelTimer.cs:99-112 | the stored total (0 when absent) grows by the rating's coins, with 32-bit wrap-around, and the text follows |
| `Timer.LevelTimer.ApplyStarSprite` | Assets/Scripts/LevelTimer.cs:121-132 | the image shows the rating's sprite, and is enabled exactly when that sprite is set |
| `Timer.LevelTimer.OnAllCleaned` | Assets/Scripts/LevelTimer.cs:79-90 | the first call stops the clock for good; it shows the rating's sprite, enabled exactly when that sprite is set; it pays the coins once and shows the new total; it shows the next button (each when set); later calls change nothing |
| `Levels.GridDim` | Assets/Scripts/LevelManager.cs:55-56 | the grid dimension is at least 1 for every level; it is `base + (level − 1)·perLevel` in 32-bit arithmetic when that is at least 1 |
| `Levels.GridDimGrowth` | Assets/Scripts/LevelManager.cs:55-56 | without growth every level has the base size; with growth a later level is never smaller |
| `Levels.CellSize` | Assets/Scripts/LevelManager.cs:105-106 | `max(1, n)` cells of that size cover the length exactly |
| `Levels.UsableLength` | Assets/Scripts/LevelManager.cs:102-103 | the usable length after padding is at least 0.01, and is exactly the padded length when that is large enough |
| `Levels.GridLayout` | Assets/Scripts/LevelManager.cs:101-111 | the usable width and depth are at least 0.01; the cells cover them exactly; the grid sits `tileHeightOffset` above the centre |
| `Levels.GridCentred` | Assets/Scripts/LevelManager.cs:109-117 | every tile centre lies strictly inside the usable area around the room centre |
| `Levels.FootprintFlat` | Assets/Scripts/LevelManager.cs:141-147 | a tile is never taller than it is wide or deep |
| `Levels.LevelManager.constructor` | Assets/Scripts/LevelManager.cs:14-26 | the settings and the current level are stored; nothing spawned, scheduled or listened to |
| `Levels.LevelManager.Start` | Assets/Scripts/LevelManager.cs:34-42 | it listens for completion when there is a cleaner, then builds the current level (`Rebuilt`): the old dirt is destroyed, tile k is `TileAt` the level's layout, its position and size included, the tiles join the parent's children and numbering goes on after them |
| `Levels.LevelManager.ClearDirt` | Assets/Scripts/LevelManager.cs:73-88 | without a dirt parent, the object named "Dirt", when found, becomes the parent with its children; then, when there is a parent, every one of its children is destroyed; otherwise nothing is |
| `Levels.LevelManager.CreateDirtTile` | Assets/Scripts/LevelManager.cs:126-150 | a fresh object at the given position, sized by `Footprint` |
| `Levels.LevelManager.SpawnGridOnFloor` | Assets/Scripts/LevelManager.cs:90-124 | exactly rows·cols fresh tiles in row-major order; tile r·cols + c is at column c and row r of the layout; all become children of the dirt parent |
| `Levels.LevelManager.SpawnedTileInsideFloor` | Assets/Scripts/LevelManager.cs:109-124 | every tile of a rows·cols grid lies strictly inside the usable floor around the room centre, at the tile height |
| `Levels.LevelManager.BuildLevel` | Assets/Scripts/LevelManager.cs:50-71 | nothing without a room and a cleaner; otherwise the old dirt (of the set or found parent) is destroyed, a `GridDim` grid is spawned whose tile k is `TileAt` the level's layout (position and size), the tiles join the parent's children, numbering goes on after them, and the cleaner is reset with them (all stated once as `Rebuilt`) |
| `Levels.LevelManager.NextLevel` | Assets/Scripts/LevelManager.cs:187-191 | the level becomes `max(1, level + 1)` in 32-bit arithmetic, so it is always at least 1, and that level is built with the full `Rebuilt` outcome of `BuildLevel` |
| `Levels.LevelManager.OnLevelComplete` | Assets/Scripts/LevelManager.cs:181-185 | the next level is scheduled, after the delay, only when `autoNextLevel` is set |
| `Levels.LevelManager.RunPendingNextLevel` | Assets/Scripts/LevelManager.cs:184-191 | a scheduled call comes due: it leaves the pending list, the level advances as in `NextLevel`, and that level is built with the full `Rebuilt` outcome |
| `CleanCamera.Engage` | Assets/Scripts/CleanModeCamera.cs:183-190 | entering clean mode locks the camera and sets the cleaner to brush mode, cleaning only while locked |
| `CleanCamera.Disengage` | Assets/Scripts/CleanModeCamera.cs:196-201 | leaving clean mode gives back the saved `controlsEnabled` and the saved cleaner flags |
| `CleanCamera.HoldRestores` | Assets/Scripts/CleanModeCamera.cs:181-202 | a press followed by a release gives back `controlsEnabled` and the cleaner's two flags |
| `CleanCamera.ToggleTwiceRestores` | Assets/Scripts/CleanModeCamera.cs:205-230 | while toggled on the camera is locked and the cleaner is in brush mode; two toggles give back `controlsEnabled` and the cleaner's flags |
| `CleanCamera.HoldDuringToggleKeepsLocked` | Assets/Scripts/CleanModeCamera.cs:181-230 | a press and release while toggled on overwrite the saved controls, so toggling off leaves the camera locked |
| `CleanCamera.ZoomTarget` | Assets/Scripts/CleanModeCamera.cs:98-101 | the zoom target always lies in [minOrthoSize, maxOrthoSize] when that range is ordered, and is the unclamped value when it already lies there |
| `CleanCamera.ZoomAntitone` | Assets/Scripts/CleanModeCamera.cs:98-101 | a larger step never gives a larger zoom target; a non-negative step from a size inside an ordered range never enlarges it |
| `CleanCamera.WindowOrderedIffViewFits` | Assets/Scripts/CleanModeCamera.cs:164-172 | the clamp window is non-empty exactly when the view fits into the bounds, across and up |
| `CleanCamera.ClampedPosition` | Assets/Scripts/CleanModeCamera.cs:173-175 | with ordered bounds the position ends inside the window; z is kept; a position already inside is unchanged |
| `CleanCamera.ClampIdempotent` | Assets/Scripts/CleanModeCamera.cs:161-176 | clamping twice is clamping once |
| `CleanCamera.Panned` | Assets/Scripts/CleanModeCamera.cs:110-113 | a pan step without movement leaves the camera where it was |
| `CleanCamera.PanComposes` | Assets/Scripts/CleanModeCamera.cs:104-114 | consecutive pan steps add up: panning from a to b and then from b to c is one pan from a to c |
| `CleanCamera.PanBackRestores` | Assets/Scripts/CleanModeCamera.cs:104-114 | dragging back to where the pan started puts the camera back |
| `CleanCamera.TouchPanFollowsFinger` | Assets/Scripts/CleanModeCamera.cs:143-158 | a finger put down at p and moved through q to r pans the camera by the world-space drag from p to r alone, and leaves the zoom target |
| `CleanCamera.PinchOutZoomsIn` | Assets/Scripts/CleanModeCamera.cs:129-142 | spreading two fingers apart, with non-negative speeds, never zooms out from a size inside the zoom range |
| `CleanCamera.ScrollAmount` | Assets/Scripts/CleanModeCamera.cs:89-94 | the legacy scroll axis is used when it is not zero |
| `CleanCamera.CleanModeCamera.constructor` | Assets/Scripts/CleanModeCamera.cs:11-41 | the inspector values; controls enabled, toggle off, and no single-finger drag |
| `CleanCamera.CleanModeCamera.Awake` | Assets/Scripts/CleanModeCamera.cs:43-65 | it finds the cleaner when none is set, links itself as its controller if it has none, saves and forces the cleaner's flags, and starts the zoom target at the camera size |
| `CleanCamera.CleanModeCamera.OnCleanButtonDown` | Assets/Scripts/CleanModeCamera.cs:181-192 | the new mode state is `Engage` of the old one |
| `CleanCamera.CleanModeCamera.OnCleanButtonUp` | Assets/Scripts/CleanModeCamera.cs:194-202 | the new mode state is `Disengage` of the old one |
| `CleanCamera.CleanModeCamera.OnCleanToggle` | Assets/Scripts/CleanModeCamera.cs:205-230 | the new mode state is `Toggle` of the old one |
| `CleanCamera.CleanModeCamera.HandleMousePC` | Assets/Scripts/CleanModeCamera.cs:83-115 | the view becomes `PcFrame` of the old one: over UI (when blocking) nothing; a scroll beyond 1e-5 moves the zoom target by one step from the camera size, within the zoom range, and none leaves it; the middle button pans by the pointer's world-space movement since the last frame |
| `CleanCamera.CleanModeCamera.HandleTouchMobile` | Assets/Scripts/CleanModeCamera.cs:118-159 | the view becomes `TouchFrame` of the old one: no touch forgets the drag; any touch over UI freezes the frame; two fingers set the zoom target from the pinch, within range; one finger starts a pan or pans by its world-space movement since the last frame |
| `CleanCamera.CleanModeCamera.ClampCameraToBounds` | Assets/Scripts/CleanModeCamera.cs:161-176 | with a camera, the position becomes `ClampedPosition` of the current window, which lies inside it when the bounds allow |
| `CleanCamera.CleanModeCamera.Update` | Assets/Scripts/CleanModeCamera.cs:67-80 | a locked camera handles no input at all; an unlocked frame sets the view to `InputFrame` (desktop input on desktop builds, then touch input), moves the view size one smoothing step towards the new zoom target without overshooting, and clamps the position into the bounds when asked |
| `Transparency.CapturedMatches` | Assets/Scripts/ObjectTransparencyOnTouch.cs:29-37 | the captured colors fit the materials they came from |
| `Transparency.FadeKeepsMatch` | Assets/Scripts/ObjectTransparencyOnTouch.cs:126-136 | fading keeps every captured renderer's material count |
| `Transparency.RestoreKeepsMatch` | Assets/Scripts/ObjectTransparencyOnTouch.cs:150-160 | restoring keeps every captured renderer's material count |
| `Transparency.FadeRestoreRoundTrip` | Assets/Scripts/ObjectTransparencyOnTouch.cs:122-166 | capture, fade and restore give every captured renderer its original colors, opaque, and leave the other renderers untouched |
| `Transparency.FadeIdempotent` | Assets/Scripts/ObjectTransparencyOnTouch.cs:126-136 | fading twice is fading once |
| `Transparency.SwitchLastWins` | Assets/Scripts/ObjectTransparencyOnTouch.cs:139-163 | switching the colliders twice is switching them the second way |
| `Transparency.ToggleTwiceRestores` | Assets/Scripts/ObjectTransparencyOnTouch.cs:86-92 | from rest (opaque, captured colors, colliders on), two toggles give back the materials, the colliders and the flag |
| `Transparency.AllOffMisses` | Assets/Scripts/ObjectTransparencyOnTouch.cs:95-119 | when every collider of the object is disabled, no ray or overlap reaches one of them first |
| `Transparency.SeeThroughIsUntouchable` | Assets/Scripts/ObjectTransparencyOnTouch.cs:95-143 | a see-through object, whose colliders were all disabled when it faded, is never hit by a tap |
| `Transparency.SeeThroughStaysSeeThrough` | Assets/Scripts/ObjectTransparencyOnTouch.cs:40-65 | no frame of taps brings a see-through object back: `Update` leaves its look as it was |
| `Transparency.EmulatedTapFades` | Assets/Scripts/ObjectTransparencyOnTouch.cs:40-65 | a press that raises both a mouse press and a Began touch on an opaque object fades it once: the touch no longer hits it |
| `Transparency.ObjectTransparencyOnTouch.constructor` | Assets/Scripts/ObjectTransparencyOnTouch.cs:11-20 | the inspector values and the scene's renderers and colliders; nothing captured, opaque |
| `Transparency.ObjectTransparencyOnTouch.CaptureColors` | Assets/Scripts/ObjectTransparencyOnTouch.cs:32-34 | the loop fills the array with exactly `ColorsOf` the materials |
| `Transparency.ObjectTransparencyOnTouch.FadeMaterials` | Assets/Scripts/ObjectTransparencyOnTouch.cs:128-135 | the loop over one renderer's materials computes exactly `Faded` |
| `Transparency.ObjectTransparencyOnTouch.RestoreMaterials` | Assets/Scripts/ObjectTransparencyOnTouch.cs:152-159 | the loop over one renderer's materials computes exactly `Restored` |
| `Transparency.ObjectTransparencyOnTouch.Awake` | Assets/Scripts/ObjectTransparencyOnTouch.cs:22-38 | one color per material is recorded for every child renderer |
| `Transparency.ObjectTransparencyOnTouch.CameraAllowsInteraction` | Assets/Scripts/ObjectTransparencyOnTouch.cs:68-83 | interaction is refused exactly when gating is on, a controller is set, and its field reports controls enabled |
| `Transparency.ObjectTransparencyOnTouch.IsTouched` | Assets/Scripts/ObjectTransparencyOnTouch.cs:95-119 | a tap hits the object only with a camera and only while it is opaque |
| `Transparency.ObjectTransparencyOnTouch.SetColliders` | Assets/Scripts/ObjectTransparencyOnTouch.cs:139-163 | every existing collider of the list is switched as asked; the others keep their flags |
| `Transparency.ObjectTransparencyOnTouch.MakeTransparent` | Assets/Scripts/ObjectTransparencyOnTouch.cs:122-143 | no-op when already transparent; otherwise every captured renderer is faded and every collider disabled |
| `Transparency.ObjectTransparencyOnTouch.Restore` | Assets/Scripts/ObjectTransparencyOnTouch.cs:146-166 | no-op when already opaque; otherwise the captured colors come back opaque and every collider is enabled |
| `Transparency.ObjectTransparencyOnTouch.ToggleTransparency` | Assets/Scripts/ObjectTransparencyOnTouch.cs:86-92 | the look becomes `Toggled` of the old one: an opaque object fades and loses every collider, a see-through one gets its captured colors, opacity and colliders back; the flag flips and the colors still fit the materials |
| `Transparency.ObjectTransparencyOnTouch.Update` | Assets/Scripts/ObjectTransparencyOnTouch.cs:40-65 | the look becomes `Tapped` of the old one: nothing while the camera forbids interaction; a mouse press that reaches an enabled collider of the object toggles; then a Began touch toggles again when it reaches one of the colliders as the first toggle left them |
| `Transparency.SameGateAsCleaner` | Assets/Scripts/ObjectTransparencyOnTouch.cs:68-83 | the object accepts taps exactly when a cleaner with the same settings would clean |
| `Painter.Active` | Assets/Scripts/Dirt/DirtPainter.cs:27-34 | with `onlyWhileInspecting`, the painter is active only when the inspection system exists and is inspecting |
| `Painter.MouseRequestAsWritten` | Assets/Scripts/Dirt/DirtPainter.cs:43-48 | as written: a call only when the button is held or let go, painting exactly when it is held in continuous mode |
| `Painter.MouseAsWrittenNeverPaintsOnRelease` | Assets/Scripts/Dirt/DirtPainter.cs:45-47 | as written, the non-continuous mouse never paints, the release frame included |
| `Painter.MouseRequest` | Assets/Scripts/Dirt/DirtPainter.cs:43-48 | corrected: in continuous mode it paints while held, otherwise on the release frame |
| `Painter.MouseRequestAgreesWhenContinuous` | Assets/Scripts/Dirt/DirtPainter.cs:45-47 | the corrected rule agrees with the code in continuous mode, and paints on release otherwise |
| `Painter.TouchRequest` | Assets/Scripts/Dirt/DirtPainter.cs:50-57 | no touch, no call; in continuous mode the first touch paints exactly when Moved or Stationary; otherwise there is a call only on Ended, and it paints |
| `Painter.TryPaint` | Assets/Scripts/Dirt/DirtPainter.cs:59-73 | a paint call happens exactly when `doIt` holds and the ray hits something with a paintable parent; it forwards the texture coordinate and the configured radius and strength unchanged |
| `Painter.Update` | Assets/Scripts/Dirt/DirtPainter.cs:27-41 | as written: a paint call only when active, with the configured radius and strength; on desktop builds only while the button is held in continuous mode; on touch, on Moved or Stationary in continuous mode and on Ended otherwise |
| `Painter.UpdateIntended` | Assets/Scripts/Dirt/DirtPainter.cs:27-57 | corrected: as `Update`, except that the mouse of a non-continuous painter paints on the release frame |
| `Painter.UpdateAsWrittenMissesRelease` | Assets/Scripts/Dirt/DirtPainter.cs:43-48 | the two rules agree in continuous mode and on touch; on a non-continuous release frame over a paintable, as written nothing is painted and the corrected rule paints the paintable under the pointer |
| `Painter.NoPaintOutsideInspection` | Assets/Scripts/Dirt/DirtPainter.cs:29-34 | a painter restricted to inspections never paints outside one, whatever the input |

## Left out

- DOTween animations: easing and durations are not modelled. An animation's completion is a method the caller invokes.
- Animations that are not state: the position and rotation of the inspected object during its flight, the shrinking of cleaned dirt, and the scale-out of a cleaned brush mask.
- Physics raycasts, `Physics2D.OverlapPointAll` and `GetComponentInParent` in the dirt cleaner and the inspection system: their results are inputs. The cleaner's hit lists never name a destroyed object.
- `Transparency.ObjectTransparencyOnTouch.IsTouched`: what the ray and the 2D overlap reach is an input, the ray's targets nearest first. The hit is decided against the object's current collider flags. `Physics2D.OverlapPoint` is taken to return the first listed enabled collider, and every child collider of the object is taken to be in the lists `Awake` collected.
- `EventSystem` checks: they are booleans.
- `ScreenToWorldPoint` and the touch-delta magnitude: they are function parameters.
- Quaternions, `ApplySmoothRotation` and the camera's smooth follow in `RoomSetup.Update`: these are float geometry.
- `ObjectInspectionSystem.SetHighlight` (emission colors) is not modelled.
- `Inspection.HideShowRoundTrip`: the main camera's `backgroundColor` (set when hiding) and `clearFlags` (forced to `Skybox` when showing) are not modelled, so the round trip speaks of renderers only.
- `RoomSetup.OdayiDuzenle`, `IzometrikKameraAyarla`, `FitCameraOrthoToRoomImmediate`, `ApplyWorldSize`, `TryGetMeshLocalSize`, `LogKameraAcisi` and `Start` are left out. They are scene layout, logging and float geometry; `BuildLevel`'s calls to the first two are left out for the same reason.
- `LevelManager.ApplyWorldSize`, its `SafeDiv` and `Awake` are left out. They are scale geometry and `FindObjectOfType` lookups. The tile keeps the world size `Footprint` asks for.
- `LevelManager.OnDestroy` is left out. It only removes the listener.
- `BrushDirt.BrushErasableDirt.DrawBrush`: the falloff `pow(1 − dist, 1/hardness)` is any function with values in [0,1] (`ValidFalloff`). The texture's 8-bit quantisation and float rounding are not modelled; the disc test compares squared distances exactly.
- `CreateBrushTexture`, `WorldToUV`, `OnDestroy` and the render-texture plumbing of `BrushErasableDirt` are left out. The brush texture is never read, `WorldToUV` is never called, and the rest is GPU resource handling.
- `BrushDirt.BrushErasableDirt.EraseBrushStroke`: the pointer raycast and the test whether it hit this object become one optional texture coordinate.
- `BrushDirt.BrushErasableDirt.OnFullyCleaned`: the call into `DirtCleaner.OnDirtCleanedByBrush` is only counted. That method is not part of the `DirtCleaner` shown.
- `DirtCleaner` members that other scripts use but the shown `DirtCleaner` does not define are not given any meaning beyond a plain field or a recorded call:
  - `useBrushMode` and `onlyWhenCameraLocked` are fields;
  - `ResetAll` is recorded in `LevelManager.resets`;
  - `onAllCleaned` is not modelled. `LevelTimer.OnAllCleaned` and `LevelManager.OnLevelComplete` are called directly, and `Start` records the subscription as a flag.
- `Cleaner.NearestSpec`: `System.Array.Sort` is not stable. Among equally near hits the model takes the first listed, while the source may take any of them.
- `LevelManager`'s `Invoke` delay is a pending list. `RunPendingNextLevel` is the call coming due, and time is not modelled.
- `Debug.Log` and `Debug.LogWarning` are left out.
- `CleanModeCamera` forcing the camera to orthographic (lines 49-50) is left out. The model's camera is orthographic.
- `CleanCamera.CleanModeCamera.HandleMousePC`: `Mathf.Approximately(scroll, 0)` is modelled as `scroll == 0`.
- `CleanCamera.CleanModeCamera.HandleMousePC`, `CleanCamera.CleanModeCamera.HandleTouchMobile`: without a camera the source throws when it pans. The model pans with the given `screenToWorld` instead.
- `CleanCamera.CleanModeCamera.HandleTouchMobile`: `Vector2.magnitude` is a function parameter, because a square root is not modelled. The legacy scroll axis is 0 when the legacy input manager is off.
- `Transparency.Faded`, `Transparency.Restored`: `SetMaterialTransparent` and `SetMaterialOpaque` set shader keywords, blend modes and render queues. These are collapsed into one `blended` flag.
- `Transparency.ObjectTransparencyOnTouch.MakeTransparent`, `Transparency.ObjectTransparencyOnTouch.Restore` iterate the dictionary in any order. The result does not depend on the order.
- `DirtPaintable` is not part of this model: its painting runs on the GPU through a shader that is not shown. `TryPaint` ends in the `PaintCall` record.
- `MobileCameraController`, `FreeCameraController`, `PinchDetection` and `MovableInCleanMode` are not part of this model. They are per-frame input polling and float smoothing. Their only discrete content is the `controlsEnabled` flag, which the gates read as an input.
- `Cleaner.DirtCleaner.CompleteCleanTweenIntended`, `Cleaner.DirtCleaner.SwipeThenCompleteIntended` and `Painter.UpdateIntended` are the corrected rules of the findings below, not what the scripts do. `CompleteCleanTween`, `SwipeThenComplete` and `Painter.Update` are the scripts as written.
- `Cleaner.DirtCleaner.CompleteCleanTween`: every shrink tween lasts `cleanDuration`, so tweens end in the order they started. The model ends the oldest one.
- `LevelTimer.RestartLevel` reloads the scene and is left out.
- `Timer.LevelTimer.UpdateUI`: the text is the number of whole seconds, without the "s" suffix.

## Findings

| source | as written | input that shows it | evidently intended | confidence | as-written member | corrected member |
|---|---|---|---|---|---|---|
| Assets/Scripts/DirtCleaner.cs:123-127 | the completion callback of the shrink animation destroys whatever the field `activeDirt` holds when the animation ends; every release calls `ResetDrag` right after `TryCleanBySwipe` (lines 76-77, 102-103), so the field is null by then | swipe dirt `d` with `destroyAfterClean` set and release; when the animation ends `activeDirt` is null and `d` survives; if dirt `e` was pressed meanwhile, `e` is destroyed instead | destroy the dirt the animation shrank | medium, not executed | `Cleaner.DirtCleaner.SwipeThenComplete` | `Cleaner.DirtCleaner.SwipeThenCompleteIntended` |
| Assets/Scripts/Dirt/DirtPainter.cs:45-47 | the mouse paints with `doIt = pressed && continuous`, so with `continuous` off the mouse never paints | `continuous` off, button let go this frame (`MouseFrame(false, true, p)`): the call says `doIt == false` | the tooltip at line 16 says "else only on release", and the touch path paints on Ended (lines 55-56): paint on the release frame | high, not executed | `Painter.UpdateAsWrittenMissesRelease` | `Painter.UpdateIntended` |
