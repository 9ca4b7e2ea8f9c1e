# AGV simulation core, modelled in Dafny

This project models the core scripts of a Unity simulation of automated guided vehicles (AGVs):

- **`TaskScheduler`** (`task_scheduler.dfy`, module `TaskScheduling`) keeps a registry of vehicles keyed by id. Each vehicle has a FIFO task queue.
  - Every frame it drains each battery. A vehicle that drops below the threshold gets a priority charging task at the head of its queue.
  - Every idle vehicle with queued work dequeues its head task and starts an `ExecuteTask` coroutine. The coroutine walks the task's waypoints, one `MoveTowards` step per frame.
  - A coroutine suspended at `yield return null` is an `Execution` value that the next frame resumes. The registry's enumeration order is an explicit `order` sequence.
- **`AGVBatterySystem`** (`battery_system.dfy`, module `Battery`) is the per-car battery. It drains faster while moving, charges on a fixed timer cycle and is clamped to [0, 100]. It also drives a slider value and a three-colour fill.
- **`SmoothObjectSpawner`** (`object_spawner.dfy`, modules `Spawner` and `MovingObjectState`) handles spawning and movement.
  - A spawn timer (re)spawns the scene's one car.
  - The active list holds at most one movement record.
  - Each record is a waypoint-index state machine that waits `moveDurationPerPoint` seconds per waypoint and wraps back to the first.
- **`AGVTracker`** (`agv_tracker.dfy`, module `Tracker`) keeps the car's trail as a bounded point buffer. It appends a point, or drops the oldest and shifts left once full.
- **`CameraFloorSwitcher`** (`camera_floor_switcher.dfy`, module `CameraFloors`) is a floor-index state machine. It ignores invalid indices, and a move completes on settling or after the floor's move time.
- **`StatusMaterialController`** (`status_material_controller.dfy`, module `StatusMaterials`) grows each child renderer's material array until the status slot fits and saves the originals. Every frame it gives each renderer a copy with the status material in that slot. On disable it puts the originals back.

`unity_types.dfy` (module `UnityTypes`) holds the shared value types:

- `Option`, for a Unity reference that may be null;
- `Vector3` with real coordinates;
- `Clamp`, for `Mathf.Clamp`.

Modelling conventions:

- Unity's `Update` is an explicit per-frame method that takes the frame time `dt`.
- Floats are exact `real`s.
- Vector geometry and the path planner are function-valued parameters:
  - `Environment.arrived` stands for `Vector3.Distance(p, q) <= 0.1`;
  - `Environment.moveTowards` stands for `Vector3.MoveTowards`;
  - `Environment.findPath` and `Environment.findPathAvoiding` stand for the path planner.
- The car's position, the renderers found under a vehicle, and "the camera has settled" are also method parameters.

## Model

| member | source | states |
|---|---|---|
| UnityTypes.Clamp | gdut/Assets/Scripts/TaskScheduler.cs:82 | the result lies in [min, max] when min <= max, is the value itself when in range, and is the nearer bound otherwise |
| TaskScheduling.RequeueBehind | gdut/Assets/Scripts/TaskScheduler.cs:130-138 | the rebuilt queue is one longer, holds the charging task at its head, and holds the old queue behind it in the old order |
| TaskScheduling.DrainedBattery | gdut/Assets/Scripts/TaskScheduler.cs:81-82 | the charge becomes exactly battery − drainRate·dt when that lies in [0, 100], exactly 0 when it falls below, and exactly 100 when it lies above; for a non-negative drain it never rises except to 100 from above |
| TaskScheduling.HasChargingTask | gdut/Assets/Scripts/TaskScheduler.cs:84-87 | a vehicle has a charging task exactly when its queue counts at least one task of type Charging |
| TaskScheduling.ChargingTaskFor | gdut/Assets/Scripts/TaskScheduler.cs:118-127 | the inserted task is a priority Charging task to the charging station along the planned path, so a queue holding only it keeps priority tasks at the head |
| TaskScheduling.EnergyUpdate | gdut/Assets/Scripts/TaskScheduler.cs:78-90 | the battery becomes the clamped drained value and nothing but the queue changes otherwise. The queue grows exactly when the drained charge is under the threshold, the current task is not Charging and no charging task is queued. When it grows, it grows by one priority charging task to the station at the head, with the old queue unchanged behind it; otherwise the queue is unchanged |
| TaskScheduling.EnergyUpdateKeepsOneChargingTask | gdut/Assets/Scripts/TaskScheduler.cs:85-89 | the low-battery check never leaves two charging tasks in a queue that held at most one |
| TaskScheduling.EnergyUpdateKeepsPriorityAtFront | gdut/Assets/Scripts/TaskScheduler.cs:117-138 | a priority task only ever sits at the head of the queue, and it is a charging task, before and after the check |
| TaskScheduling.FirstUnreached | gdut/Assets/Scripts/TaskScheduler.cs:176-178 | the next waypoint walked to is the first one at or after the resumed index that is not within tolerance; every waypoint passed on the way is within tolerance |
| TaskScheduling.SkipReachedWaypoints | gdut/Assets/Scripts/TaskScheduler.cs:176-178 | the `foreach`/`while` scan returns exactly FirstUnreached |
| TaskScheduling.Resume | gdut/Assets/Scripts/TaskScheduler.cs:171-193 | one coroutine run to its next yield or its end. When suspended: same task, the new target is FirstUnreached from the resumed waypoint, so every waypoint before it is already reached and it is not, and the vehicle took exactly one MoveTowards step of 2·dt towards it. When finished: every remaining waypoint is reached, the vehicle is Idle where it stood, and the battery is 100 after a Charging task and unchanged otherwise. A task with no waypoints left finishes at once |
| TaskScheduling.ResumeAll | gdut/Assets/Scripts/TaskScheduler.cs:176-183 | resuming every suspended coroutine keeps the vehicle's id and queue, never adds coroutines, leaves each survivor before an existing waypoint, and keeps a battery in [0, 100] in range |
| TaskScheduling.RunCoroutine | gdut/Assets/Scripts/TaskScheduler.cs:176-192 | the imperative coroutine step equals Resume |
| TaskScheduling.ResumeEach | gdut/Assets/Scripts/TaskScheduler.cs:176-183 | the loop resuming a vehicle's coroutines one by one, oldest first, equals ResumeAll |
| TaskScheduling.AfterResume | gdut/Assets/Scripts/TaskScheduler.cs:165 | after resumption, with the coroutine started this frame queued last, id and queue are kept and every coroutine aims at an existing waypoint |
| TaskScheduling.Dispatch | gdut/Assets/Scripts/TaskScheduler.cs:160-166 | a busy vehicle or an empty queue changes nothing and starts nothing. Otherwise the head task is dequeued and its coroutine runs up to its first yield. When it finishes at once, the vehicle is Idle where it stood, with 100 charge after a Charging task and its old charge otherwise. When it suspends, currentTask is the task's type, the coroutine aims at the first unreached waypoint of the path (FirstUnreached from waypoint 0), and the vehicle took one MoveTowards step of 2·dt towards it with its charge unchanged. The id is kept, and a charge in [0, 100] stays in it |
| TaskScheduling.FrameUpdate | gdut/Assets/Scripts/TaskScheduler.cs:33-43 | one frame for one vehicle keeps its id, leaves the battery in [0, 100] and leaves every coroutine before an existing waypoint |
| TaskScheduling.FrameKeepsPriorityAtFront | gdut/Assets/Scripts/TaskScheduler.cs:126-138 | a whole frame keeps priority tasks at the head of the queue |
| TaskScheduling.FrameKeepsOneChargingTask | gdut/Assets/Scripts/TaskScheduler.cs:84-90 | a whole frame never leaves two charging tasks queued where there was at most one |
| TaskScheduling.FrameKeepsSingleActiveTask | gdut/Assets/Scripts/TaskScheduler.cs:162-166 | while no Idle-typed task is queued, a frame keeps "Idle exactly when no coroutine runs, otherwise one coroutine running currentTask" |
| TaskScheduling.IdleDrain | gdut/Assets/Scripts/TaskScheduler.cs:30 | the test vehicle 1, idle with a 0.5 drain and 1-second frames, has 100 − 0.5·n after n <= 170 frames and no tasks |
| TaskScheduling.ChargingAfter171Frames | gdut/Assets/Scripts/TaskScheduler.cs:85-89 | frame 171 takes the battery below 15, so a charging task to (10, 0, 10) is queued and dispatched in that frame |
| TaskScheduling.IdleTaskLetsTwoTasksRun | gdut/Assets/Scripts/TaskScheduler.cs:162-165 | an Idle-typed task leaves the vehicle looking idle while it runs, so the next frame starts a second coroutine on the same vehicle |
| TaskScheduling.TaskScheduler.constructor | gdut/Assets/Scripts/TaskScheduler.cs:18 | an empty registry |
| TaskScheduling.TaskScheduler.Start | gdut/Assets/Scripts/TaskScheduler.cs:21-31 | registers test vehicle 1 at the origin with 100 charge, idle, with no tasks and no coroutines; a new id 1 is enumerated last, a known one keeps its place |
| TaskScheduling.TaskScheduler.AddAGV | gdut/Assets/Scripts/TaskScheduler.cs:46-56 | always (re)places the entry with an idle vehicle and an empty queue. A new id is enumerated last and a known id keeps its place. The registry invariant is kept |
| TaskScheduling.TaskScheduler.AddNewTask | gdut/Assets/Scripts/TaskScheduler.cs:59-75 | an unknown id changes nothing; otherwise exactly one non-priority task with the planned path joins the tail of that vehicle's queue |
| TaskScheduling.TaskScheduler.UpdateAGVState | gdut/Assets/Scripts/TaskScheduler.cs:78-94 | that vehicle becomes EnergyUpdate of itself; nothing else changes |
| TaskScheduling.TaskScheduler.InsertChargingTask | gdut/Assets/Scripts/TaskScheduler.cs:117-141 | the charging task to the station becomes the head of the queue, and the old queue follows it in order |
| TaskScheduling.TaskScheduler.UpdateAllAGVStates | gdut/Assets/Scripts/TaskScheduler.cs:36-39 | every registered vehicle becomes EnergyUpdate of itself |
| TaskScheduling.TaskScheduler.DispatchVehicle | gdut/Assets/Scripts/TaskScheduler.cs:162-166 | that vehicle and its started coroutine are Dispatch of it |
| TaskScheduling.TaskScheduler.ProcessTaskQueue | gdut/Assets/Scripts/TaskScheduler.cs:158-168 | every vehicle, with its started coroutine, is Dispatch of itself |
| TaskScheduling.TaskScheduler.ResumeVehicle | gdut/Assets/Scripts/TaskScheduler.cs:176-183 | that vehicle and its coroutines are AfterResume of them, and the registry invariant is kept |
| TaskScheduling.TaskScheduler.ResumeCoroutines | gdut/Assets/Scripts/TaskScheduler.cs:176-183 | every vehicle and its coroutines are AfterResume of them |
| TaskScheduling.TaskScheduler.Update | gdut/Assets/Scripts/TaskScheduler.cs:33-43 | every vehicle and its coroutines are FrameUpdate of them; every battery lies in [0, 100]; the registry invariant is kept |
| TaskScheduling.PathContainsNode | gdut/Assets/Scripts/TaskScheduler.cs:151-155 | the node test answers false for every path and node |
| TaskScheduling.TaskScheduler.HandleFaultEvent | gdut/Assets/Scripts/TaskScheduler.cs:97-114 | because the path test always answers false, a fault changes nothing |
| Battery.DrainRate | gdut/Assets/Scripts/objectMove/AGVBatterySystem.cs:94 | the moving rate while the record says moving, the idle rate otherwise |
| Battery.NextBattery | gdut/Assets/Scripts/objectMove/AGVBatterySystem.cs:83-97 | the new charge lies in [0, 100]. Charging adds exactly chargingRate·dt when that stays in range, and gives exactly 100 (or 0) when it overshoots. Draining takes exactly rate·dt when that stays in range, and gives exactly 0 (or 100) when it overshoots. Charging never lowers a charge in range and draining never raises it |
| Battery.ChargeCycle | gdut/Assets/Scripts/objectMove/AGVBatterySystem.cs:110-131 | charging is on exactly when the new timer is not negative. The timer resets to the interval once it would reach −interval and otherwise counts down by dt. A timer in (−interval, interval] stays there |
| Battery.TimerStaysInWindow | gdut/Assets/Scripts/objectMove/AGVBatterySystem.cs:114-120 | over any number of frames, the timer never leaves (−interval, interval] |
| Battery.OneSecondFramesCycle | gdut/Assets/Scripts/objectMove/AGVBatterySystem.cs:114-129 | with 1-second frames and interval 5, charging is off for frames 1–4. Frame 5 resets the timer to 5. After that it is on for six frames and off for four, and the timer is 5 again ten frames later |
| Battery.Band | gdut/Assets/Scripts/objectMove/AGVBatterySystem.cs:141-149 | full colour exactly above 50, medium exactly in (20, 50], low exactly at 20 or below |
| Battery.BandMonotone | gdut/Assets/Scripts/objectMove/AGVBatterySystem.cs:143-148 | more charge never shows a lower colour |
| Battery.SliderValue | gdut/Assets/Scripts/objectMove/AGVBatterySystem.cs:138 | the slider value times 100 is the charge, and lies in [0, 1] for a charge in [0, 100] |
| Battery.AGVBatterySystem.constructor | gdut/Assets/Scripts/objectMove/AGVBatterySystem.cs:11-49 | the Inspector settings, charge 0, not charging, a default movement record, timer 0, interval 5 |
| Battery.AGVBatterySystem.Start | gdut/Assets/Scripts/objectMove/AGVBatterySystem.cs:50-64 | the charge starts at initialBattery, and the assigned widgets show it |
| Battery.AGVBatterySystem.Update | gdut/Assets/Scripts/objectMove/AGVBatterySystem.cs:66-73 | the charge is NextBattery under the old charging flag, then the timer and flag are ChargeCycle of the old timer |
| Battery.AGVBatterySystem.SetMovingObject | gdut/Assets/Scripts/objectMove/AGVBatterySystem.cs:76-80 | stores the record, a copy, and nothing else changes |
| Battery.AGVBatterySystem.UpdateBatteryState | gdut/Assets/Scripts/objectMove/AGVBatterySystem.cs:83-107 | the charge becomes NextBattery of the old charge, and the widgets show it |
| Battery.AGVBatterySystem.CheckChargingStatus | gdut/Assets/Scripts/objectMove/AGVBatterySystem.cs:110-131 | the three successive tests leave timer and flag equal to ChargeCycle |
| Battery.AGVBatterySystem.UpdateBatteryUI | gdut/Assets/Scripts/objectMove/AGVBatterySystem.cs:134-155 | an assigned slider shows SliderValue, an assigned fill shows Band, and unassigned ones stay unassigned |
| Battery.AGVBatterySystem.GetCurrentBattery | gdut/Assets/Scripts/objectMove/AGVBatterySystem.cs:158-161 | returns the charge |
| Battery.AGVBatterySystem.IsCharging | gdut/Assets/Scripts/objectMove/AGVBatterySystem.cs:164-167 | returns the charging flag |
| Battery.AGVBatterySystem.IsLowBattery | gdut/Assets/Scripts/objectMove/AGVBatterySystem.cs:170-173 | low exactly when the charge is under the threshold; with a threshold of at most 20 a low battery always shows the low colour |
| Battery.AGVBatterySystem.SetCharging | gdut/Assets/Scripts/objectMove/AGVBatterySystem.cs:176-179 | sets the flag and nothing else |
| Spawner.SpawnRecord | gdut/Assets/Scripts/objectMove/SmoothObjectSpawner.cs:109-117 | the fresh record starts at the spawn point, aims at waypoint 0, has timer 0 and is moving |
| Spawner.MovementStep | gdut/Assets/Scripts/objectMove/SmoothObjectSpawner.cs:140-196 | a dead car's record is dropped. An index past the waypoints destroys the car and drops the record. Otherwise the record is kept and still aims at an existing waypoint, and it is moving exactly while timer + dt is under the duration. Until then only the timer grows. On arrival the record restarts at the reached waypoint with timer 0, aiming at the next index modulo the waypoint count |
| Spawner.Survivors | gdut/Assets/Scripts/objectMove/SmoothObjectSpawner.cs:60-77 | a frame never adds records |
| Spawner.InRangeKeepsEveryRecord | gdut/Assets/Scripts/objectMove/SmoothObjectSpawner.cs:146-150 | while the car lives and every record aims at an existing waypoint, a frame keeps every record, keeps them in range and destroys nothing |
| Spawner.SurvivorsSplit | gdut/Assets/Scripts/objectMove/SmoothObjectSpawner.cs:63-76 | the records kept from a list are those kept from its front followed by those kept from its back, in order |
| Spawner.SpawnTimerStep | gdut/Assets/Scripts/objectMove/SmoothObjectSpawner.cs:48-57 | it spawns exactly when timer − dt <= 0, and then re-arms to the interval; otherwise the timer is timer − dt and positive |
| Spawner.AfterSpawn | gdut/Assets/Scripts/objectMove/SmoothObjectSpawner.cs:129-135 | with a spawn point and waypoints, an empty list becomes exactly the one fresh record (at the spawn point, waypoint 0, timer 0, moving). With no spawn point, no waypoints or a non-empty list, nothing is added. A list of at most one stays at most one, and records in range stay in range |
| Spawner.SmoothObjectSpawner.constructor | gdut/Assets/Scripts/objectMove/SmoothObjectSpawner.cs:8-26 | the Inspector settings, an empty list, timer 0, and a live car |
| Spawner.SmoothObjectSpawner.Start | gdut/Assets/Scripts/objectMove/SmoothObjectSpawner.cs:28-33 | the timer is armed with the interval, the list is AfterSpawn of the old one, and the car's battery component is BatteryAfter a spawn: when the guards pass it holds the fresh record, an existing component keeping its charge, cycle and widgets, and a missing one created with the default settings |
| Spawner.SmoothObjectSpawner.Update | gdut/Assets/Scripts/objectMove/SmoothObjectSpawner.cs:35-45 | the timer step (when auto-spawn is on), then the list becomes Survivors of the list after any spawn. No record is lost while the car lives, and at most one record, in range, is kept. The battery component is BatteryAfter the spawn decision: untouched without a spawn, holding the fresh record after one |
| Spawner.SmoothObjectSpawner.UpdateSpawnTimer | gdut/Assets/Scripts/objectMove/SmoothObjectSpawner.cs:48-57 | timer and spawn are SpawnTimerStep; a spawn changes the list as AfterSpawn and the battery component as BatteryAfter; without a spawn the list and the battery component are untouched |
| Spawner.SmoothObjectSpawner.UpdateMovingObjects | gdut/Assets/Scripts/objectMove/SmoothObjectSpawner.cs:60-77 | the reverse loop with RemoveAt leaves exactly Survivors of the old list, in order; the car dies exactly when some record destroyed it |
| Spawner.SmoothObjectSpawner.SpawnAndMoveObject | gdut/Assets/Scripts/objectMove/SmoothObjectSpawner.cs:80-137 | with no spawn point or no waypoints nothing changes, the battery component included. Otherwise the car's battery component holds the new record: an existing one keeps its charge, charging flag, cycle timer, slider and fill, and a missing one is created with the default settings, no widgets and zero charge until its Start. The list becomes AfterSpawn |
| Spawner.SmoothObjectSpawner.CleanupAllObjects | gdut/Assets/Scripts/objectMove/SmoothObjectSpawner.cs:220-230 | Destroy is called once per record while the car lives (Destroy is deferred, so the car stays non-null for every record) and never when it is already gone; the list is emptied, and the car dies exactly when some record destroyed it |
| Spawner.SpawnedCarDrainsAtMovingRate | gdut/Assets/Scripts/objectMove/SmoothObjectSpawner.cs:109-122 | the battery's copy of the record says moving for good, so a car that is not charging always drains at the moving rate |
| Tracker.Record | gdut/Assets/Scripts/AGVTracker.cs:65-93 | the new point is last. A full bounded buffer keeps its size, and any other grows by one with its old points unchanged. Within the bound, the result is the newest maxPositions points of the old buffer plus the new point |
| Tracker.RecordAllKeepsNewest | gdut/Assets/Scripts/AGVTracker.cs:74-91 | however many positions are recorded, a buffer starting within its bound holds exactly the newest maxPositions of everything recorded, oldest first (all of it when unbounded), so it never exceeds the bound |
| Tracker.DropOldestAndAppend | gdut/Assets/Scripts/AGVTracker.cs:77-85 | the array copy keeps the length, drops the oldest point, shifts the rest left by one and puts the new point last |
| Tracker.AGVTracker.constructor | gdut/Assets/Scripts/AGVTracker.cs:20-22 | no renderer, no points, not initialised |
| Tracker.AGVTracker.Awake | gdut/Assets/Scripts/AGVTracker.cs:24-27 | the trail is exactly the car's position, which is also the last recorded position |
| Tracker.AGVTracker.Update | gdut/Assets/Scripts/AGVTracker.cs:29-32 | one TrackPosition: a point is recorded (the buffer becomes Record of the old one) exactly when initialised and at least positionSpacing from the last one; otherwise the trail is unchanged; the initialised and renderer flags stay as they were |
| Tracker.AGVTracker.InitializeLineRenderer | gdut/Assets/Scripts/AGVTracker.cs:34-51 | exactly one point, the current position; it is the last recorded position, and the tracker is initialised |
| Tracker.AGVTracker.TrackPosition | gdut/Assets/Scripts/AGVTracker.cs:53-63 | a point is recorded exactly when initialised and at least positionSpacing from the last one; otherwise nothing changes |
| Tracker.AGVTracker.AddNewPosition | gdut/Assets/Scripts/AGVTracker.cs:65-93 | the point becomes the last recorded position and the buffer becomes Record of the old one |
| Tracker.AGVTracker.ClearPath | gdut/Assets/Scripts/AGVTracker.cs:96-104 | with a renderer, the trail restarts as exactly the current position; without one nothing changes; either way the renderer flag is kept |
| CameraFloors.TimedStep | gdut/Assets/Scripts/CameraMove/CameraFloorSwitcher.cs:48-57 | the timer grows by the frame time, and the move goes on exactly while the new timer is below the floor's moveTime |
| CameraFloors.TimerCountsFrames | gdut/Assets/Scripts/CameraMove/CameraFloorSwitcher.cs:48 | while a timed move goes on, its timer equals frames × dt |
| CameraFloors.TimedMoveCompletes | gdut/Assets/Scripts/CameraMove/CameraFloorSwitcher.cs:48-57 | with positive frame times, a timed move is still going after n >= 1 frames exactly when n·dt is under the floor's moveTime, so it completes on the first frame reaching it |
| CameraFloors.CameraFloorSwitcher.constructor | gdut/Assets/Scripts/CameraMove/CameraFloorSwitcher.cs:13-22 | floor index 0, no target, not moving |
| CameraFloors.CameraFloorSwitcher.Start | gdut/Assets/Scripts/CameraMove/CameraFloorSwitcher.cs:24-30 | with at least one floor, a move to floor 0 starts; with none, nothing changes |
| CameraFloors.CameraFloorSwitcher.SwitchToFloor | gdut/Assets/Scripts/CameraMove/CameraFloorSwitcher.cs:69-84 | a valid index becomes the floor and starts a move to its view point with timer 0; any other index changes nothing; the floor index is always 0 or valid |
| CameraFloors.CameraFloorSwitcher.Update | gdut/Assets/Scripts/CameraMove/CameraFloorSwitcher.cs:32-60 | nothing changes unless moving towards a non-null target. A smooth move ends exactly when settled. A timed move's timer and flag are one TimedStep against the current floor's moveTime |
| CameraFloors.CameraFloorSwitcher.CompleteMovement | gdut/Assets/Scripts/CameraMove/CameraFloorSwitcher.cs:62-67 | the move is over; floor, target and timer are kept |
| StatusMaterials.WithSlot | gdut/Assets/Scripts/MaterialsChange/StatusMaterialController.cs:77-89 | after growing, the slot index is an index of the materials. The length is the old length or slot + 1, the old materials are a preserved prefix, and every added slot holds a Standard material |
| StatusMaterials.EnsureMaterialSlot | gdut/Assets/Scripts/MaterialsChange/StatusMaterialController.cs:69-90 | the grow-by-one array loop leaves exactly WithSlot of the renderer's materials; a null renderer is left alone |
| StatusMaterials.Prepare | gdut/Assets/Scripts/MaterialsChange/StatusMaterialController.cs:54-59 | a null renderer stays null; any other keeps its materials as a prefix and gains the slot |
| StatusMaterials.Saved | gdut/Assets/Scripts/MaterialsChange/StatusMaterialController.cs:54-63 | the saved list is no longer than the renderer list |
| StatusMaterials.SavedComesFromRenderers | gdut/Assets/Scripts/MaterialsChange/StatusMaterialController.cs:54-63 | every saved entry is the materials of some non-null renderer, so with no non-null renderer nothing is saved |
| StatusMaterials.Restyle | gdut/Assets/Scripts/MaterialsChange/StatusMaterialController.cs:99-113 | a null renderer stays null. A renderer that changes becomes a copy of its saved entry with the status material in the slot and every other slot as saved; a non-null renderer whose saved entry exists and holds the slot always shows the status material there |
| StatusMaterials.Restore | gdut/Assets/Scripts/MaterialsChange/StatusMaterialController.cs:149-155 | a null renderer stays null; a non-null one with a saved entry gets exactly that entry back; one past the saved list is untouched |
| StatusMaterials.PrepareEach | gdut/Assets/Scripts/MaterialsChange/StatusMaterialController.cs:54-63 | the loop over the renderers found leaves exactly Prepared of them and saves exactly Saved of the prepared renderers: the grown materials of each non-null renderer, in order |
| StatusMaterials.SavedWithoutNulls | gdut/Assets/Scripts/MaterialsChange/StatusMaterialController.cs:54-62 | without null renderers, saved entry i belongs to renderer i |
| StatusMaterials.StartThenDisableRestores | gdut/Assets/Scripts/MaterialsChange/StatusMaterialController.cs:145-156 | without null renderers, a frame gives each renderer its own saved materials with only the slot replaced, and OnDisable restores exactly what Start saved |
| StatusMaterials.NullRendererMisalignsSaved | gdut/Assets/Scripts/MaterialsChange/StatusMaterialController.cs:101-106 | a null renderer at init shifts saved entries against renderer positions: the next renderer is styled from its neighbour's materials, and the last is never styled nor restored |
| StatusMaterials.StatusMaterialController.constructor | gdut/Assets/Scripts/MaterialsChange/StatusMaterialController.cs:14-28 | the Inspector settings, no renderers, nothing saved, not initialised |
| StatusMaterials.StatusMaterialController.Start | gdut/Assets/Scripts/MaterialsChange/StatusMaterialController.cs:30-34 | prepares and saves the renderers found; then, when initialised, each is Restyle of its prepared self |
| StatusMaterials.StatusMaterialController.Update | gdut/Assets/Scripts/MaterialsChange/StatusMaterialController.cs:36-39 | one UpdateAllMaterials |
| StatusMaterials.StatusMaterialController.InitializeMaterials | gdut/Assets/Scripts/MaterialsChange/StatusMaterialController.cs:42-66 | with no renderers it stays uninitialised. Otherwise the renderers become Prepared. The saved list gains the grown materials of the non-null renderers, in order, and the controller is initialised |
| StatusMaterials.StatusMaterialController.UpdateAllMaterials | gdut/Assets/Scripts/MaterialsChange/StatusMaterialController.cs:93-115 | a no-op unless initialised with renderers. Then each non-null renderer with a saved entry holding the slot gets that entry with only the slot set to the status material; every other renderer is untouched |
| StatusMaterials.StatusMaterialController.GetCurrentStatusMaterial | gdut/Assets/Scripts/MaterialsChange/StatusMaterialController.cs:118-127 | Normal, Charging and Malfunction map to their own materials |
| StatusMaterials.StatusMaterialController.SetStatus | gdut/Assets/Scripts/MaterialsChange/StatusMaterialController.cs:130-137 | the current status changes nothing; a new one is stored and every renderer is restyled with it |
| StatusMaterials.StatusMaterialController.SetNormal | gdut/Assets/Scripts/MaterialsChange/StatusMaterialController.cs:140 | the status becomes Normal, whose material is normalMaterial. From another status, every renderer of an initialised controller becomes Restyle of itself with normalMaterial; the saved materials and the initialised flag are kept; from Normal itself nothing changes |
| StatusMaterials.StatusMaterialController.SetCharging | gdut/Assets/Scripts/MaterialsChange/StatusMaterialController.cs:141 | the status becomes Charging, whose material is chargingMaterial. From another status, every renderer of an initialised controller becomes Restyle of itself with chargingMaterial; the saved materials and the initialised flag are kept; from Charging itself nothing changes |
| StatusMaterials.StatusMaterialController.SetMalfunction | gdut/Assets/Scripts/MaterialsChange/StatusMaterialController.cs:142 | the status becomes Malfunction, whose material is malfunctionMaterial. From another status, every renderer of an initialised controller becomes Restyle of itself with malfunctionMaterial; the saved materials and the initialised flag are kept; from Malfunction itself nothing changes |
| StatusMaterials.StatusMaterialController.OnDisable | gdut/Assets/Scripts/MaterialsChange/StatusMaterialController.cs:145-156 | a no-op unless initialised. Then each non-null renderer with a saved entry gets that entry back, and every other renderer is untouched |

### Invariants the code does not keep

Each of these properties would be natural for a fleet scheduler, and the code does not keep it. The model follows the code:

- **At most one active task is not guaranteed.** A task of type Idle added through AddNewTask leaves `currentTask` Idle while its coroutine runs, so the next frame starts a second coroutine on the same vehicle (`IdleTaskLetsTwoTasksRun`). The single-active-task property holds only while no Idle-typed task is queued (`FrameKeepsSingleActiveTask`).
- **At most one queued charging task is not guaranteed.** AddNewTask accepts any task type, including Charging. Only the low-battery check avoids a second charging task (`FrameKeepsOneChargingTask`).
- **A charging vehicle's charge does not rise while it charges.** The scheduler drains every battery every frame, even during a Charging task. The charge jumps to 100 only when a Charging task completes (`Resume`).
- **A registered vehicle's entry is not kept when its id is registered again.** AddAGV overwrites it with an idle vehicle and an empty queue. The id keeps its place in the enumeration order. Coroutines of the replaced vehicle only move the orphaned old object, so the model drops them.
- **A vehicle's path does not avoid a faulty node.** PathContainsNode always answers false, so HandleFaultEvent never replans.
- **A car's battery does not drain at the rate of its current movement state.** Its movement record is the copy taken at spawn time, which says "moving" for good (`SpawnedCarDrainsAtMovingRate`).

## Left out

- Float geometry: `Vector3.MoveTowards`, `Vector3.Distance`, `Vector3.Lerp`, `Mathf.SmoothStep`, `Quaternion.Slerp`/`Lerp`. Positions are exact values; arrival and stepping are parameters; the car's and the camera's interpolated poses are not modelled. Floats are exact reals, so single-precision rounding is not modelled.
- The Unity engine: the frame loop, `StartCoroutine` scheduling, `GetComponent`/`AddComponent`, `Destroy` (modelled as the car's liveness flag after the frame), `Time.deltaTime` (the `dt` parameter), the fault event subscription, and `Debug.Log`/`LogWarning`/`LogError`.
- The UI collaborators `AGVUIManager.UpdateTaskList`/`UpdateAGVStatus`, the battery text with its `F0` formatting, the colours as RGB values, `SetLineWidth`/`SetLineColor` and the LineRenderer's width, colour and material, Gizmos drawing (`OnDrawGizmos`, `OnDrawGizmosSelected`), and `FindNearestChargingStation`'s map lookup (it answers a constant).
- PathPlanner and FaultManager: the planner is a function parameter and the fault manager is not part of this model. `globalTaskQueue` is never used by the code and is not modelled.
- TaskScheduling.Resume, TaskScheduling.Dispatch: the planner is assumed always to return a path (`Environment.findPath` yields a sequence). A null path from `FindPath` (TaskScheduler.cs:68, :125) makes the `foreach` at TaskScheduler.cs:176 throw before currentTask is reset at :192, so the vehicle keeps its task type with no running coroutine and is never dispatched again. That stuck vehicle is not modelled.
- Battery.AGVBatterySystem.constructor: requires `0 <= initialBattery <= 100` and `0 <= lowBatteryThreshold <= 30`, the bounds of the Inspector's `[Range]` attributes. Those bound the editor only, so a value set from code outside them is not modelled.
- TaskScheduling.TaskScheduler.HandleFaultEvent: `agv.currentTask.path` at TaskScheduler.cs:102-105 reads a path from an enum value. The model reads it from the vehicle's latest coroutine, but since the node test answers false the replan never runs.
- TaskScheduling.TaskScheduler.AddNewTask: the UI refresh at TaskScheduler.cs:74 is not modelled. A null `pathPlanner` (a NullReferenceException) is not modelled either.
- Spawner.SmoothObjectSpawner.SpawnAndMoveObject: requires the car to be alive. On a destroyed car the source's `car.GetComponent` throws, and that exception path is not modelled. The `LogError` branch after `AddComponent` cannot be reached and is left out.
- Spawner.SmoothObjectSpawner.constructor: requires `moveDurationPerPoint > 0`, so the model excludes a zero or negative duration. With single-precision floats, the source then divides to an infinite (or negative) interpolation parameter instead of failing: with duration 0 a record moves on one waypoint per frame, and with a negative duration it also moves on every frame while `isMoving` stays true. Those settings are outside this model.
- Spawner.MovementStep: the record's waypoint index is a `nat`, because the code only ever sets it to 0 or increments it.
- Tracker.AGVTracker.constructor: `maxPositions` and `positionSpacing` are fixed for the component's life, so changes in the Inspector at run time are not modelled.
- CameraFloors.CameraFloorSwitcher.Update: the smooth branch's "closer than 0.01" test is the `settled` parameter, because the Lerp/Slerp pose is not modelled. `smoothSpeed` is therefore absent, and a null `floorViews` array is not modelled.
- StatusMaterials.EnsureMaterialSlot: every `new Material(Shader.Find("Standard"))` is the single value `StandardMaterial`, so material identity and the shader lookup are not modelled. Renderers are modelled as their shared-material lists.
- TaskScheduling.TaskScheduler.Update: assumes `uiManager` and `pathPlanner` are assigned. A null `uiManager` makes UpdateAGVState throw at TaskScheduler.cs:93, and a null `pathPlanner` makes InsertChargingTask throw at TaskScheduler.cs:125. Either exception ends the frame inside the first loop, so later vehicles get no battery update and ProcessTaskQueue does not run that frame. That early exit is not modelled.
- TaskScheduling.TaskScheduler.UpdateAGVState: the `uiManager.UpdateAGVStatus` call at TaskScheduler.cs:93 and its null-reference exception are not modelled.
- TaskScheduling.TaskScheduler.InsertChargingTask: a null `pathPlanner` at TaskScheduler.cs:125 (a NullReferenceException) is not modelled.
- StatusMaterials.StatusMaterialController.OnDisable: the ArgumentOutOfRangeException thrown by the saved-list index at StatusMaterialController.cs:153 ends the pass and leaves earlier renderers restored. What the engine does with the exception afterwards is not modelled.
- StatusMaterials.StatusMaterialController.UpdateAllMaterials: the ArgumentOutOfRangeException thrown by the saved-list index at StatusMaterialController.cs:105 ends the pass and leaves earlier renderers restyled. What the engine does with the exception afterwards (logging, continuing next frame) is not modelled.
- The second `StatusMaterialController` in `gdut/Assets/Scripts/StatusMaterialController.cs` (a single switch on `renderer.material`) is not part of this model.
