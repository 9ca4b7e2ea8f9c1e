/**
 * The AGV fleet scheduler of TaskScheduler.cs: a registry of vehicles keyed by id, a FIFO task
 * queue per vehicle with priority insertion of a charging task, a battery drained every frame,
 * and the ExecuteTask coroutines that walk each task's waypoints.
 *
 * Unity's per-frame `Update` becomes the method `Update(dt, env)`; a coroutine suspended at
 * `yield return null` becomes an `Execution` value that the next frame resumes.
 */
module TaskScheduling {
  import opened UnityTypes

  datatype TaskType = Idle | Pickup | Transport | Delivery | Charging

  /** TaskCommand: what to do, where, the planned waypoints, and whether the system inserted it. */
  datatype TaskCommand = TaskCommand(taskType: TaskType, targetPosition: Vector3, path: seq<Vector3>, isPriority: bool)

  /** AGVData: one registered vehicle. */
  datatype AGVData = AGVData(id: int, position: Vector3, battery: real, currentTask: TaskType, taskQueue: seq<TaskCommand>)

  /** A suspended ExecuteTask coroutine: its task, and the index of the waypoint it walks to. */
  datatype Execution = Execution(task: TaskCommand, waypoint: nat)

  /**
   * What the scheduler calls but does not define: the path planner (PathPlanner.FindPath and
   * FindPathAvoiding), and the float geometry of ExecuteTask. `arrived(p, q)` stands for
   * `Vector3.Distance(p, q) <= 0.1` and `moveTowards` for `Vector3.MoveTowards`.
   */
  datatype Environment = Environment(
    findPath: (Vector3, Vector3) -> seq<Vector3>,
    findPathAvoiding: (Vector3, Vector3, seq<int>) -> seq<Vector3>,
    arrived: (Vector3, Vector3) -> bool,
    moveTowards: (Vector3, Vector3, real) -> Vector3)

  /** FindNearestChargingStation answers this point whatever the vehicle's position. */
  const ChargingStation := Vector3(10.0, 0.0, 10.0)

  /** The distance per second handed to MoveTowards. */
  const Speed := 2.0

  const FullBattery := 100.0

  /** The waypoint a freshly started coroutine walks to first. */
  const FirstWaypoint: nat := 0

  /** Every coroutine's waypoint index lies within its task's path. */
  predicate Resumable(running: seq<Execution>) {
    forall e | e in running :: e.waypoint <= |e.task.path|
  }

  /** The suspended coroutine a run leaves behind, as a list of zero or one element. */
  function Suspended(e: Option<Execution>): seq<Execution> {
    if e.Some? then [e.value] else []
  }

  // ------------------------------------------------------------------ task queues

  /** HasChargingTask, which the source calls but never defines: some queued task is a charging task. */
  predicate HasChargingTask(agv: AGVData): (r: bool)
    ensures r <==> ChargingTaskCount(agv.taskQueue) > 0
  {
    ChargingTaskCountPositive(agv.taskQueue);
    exists t | t in agv.taskQueue :: t.taskType == Charging
  }

  /** The number of charging tasks in a queue. */
  function ChargingTaskCount(queue: seq<TaskCommand>): nat {
    if queue == [] then 0
    else (if queue[0].taskType == Charging then 1 else 0) + ChargingTaskCount(queue[1..])
  }

  /** A queue counts some charging task exactly when one of its tasks is a charging task. */
  lemma {:induction false} ChargingTaskCountPositive(queue: seq<TaskCommand>)
    ensures ChargingTaskCount(queue) > 0 <==> exists t | t in queue :: t.taskType == Charging
  {
    if queue != [] {
      ChargingTaskCountPositive(queue[1..]);
      assert queue[0] in queue;
      assert forall t | t in queue[1..] :: t in queue;
      assert forall t | t in queue :: t == queue[0] || t in queue[1..];
    }
  }

  /** The queue discipline: a priority task is a charging task and only ever sits at the head. */
  predicate PriorityAtFront(queue: seq<TaskCommand>) {
    forall i | 0 <= i < |queue| && queue[i].isPriority :: i == 0 && queue[i].taskType == Charging
  }

  /** True when the queue holds no task of type Idle (the case that lets two coroutines overlap). */
  predicate NoIdleTasks(queue: seq<TaskCommand>) {
    forall t | t in queue :: t.taskType != Idle
  }

  /** The task InsertChargingTask builds: to the charging station, along a planned path, flagged priority. */
  function ChargingTaskFor(agv: AGVData, env: Environment): (t: TaskCommand)
    ensures t.taskType == Charging && t.isPriority && t.targetPosition == ChargingStation
    ensures t.path == env.findPath(agv.position, ChargingStation)
    ensures PriorityAtFront([t])
  {
    TaskCommand(Charging, ChargingStation, env.findPath(agv.position, ChargingStation), true)
  }

  lemma {:induction false} NoChargingTaskCountsZero(queue: seq<TaskCommand>)
    requires forall t | t in queue :: t.taskType != Charging
    ensures ChargingTaskCount(queue) == 0
  {
    if queue != [] {
      assert queue[0] in queue;
      assert forall t | t in queue[1..] :: t in queue;
      NoChargingTaskCountsZero(queue[1..]);
    }
  }

  /**
   * The queue rebuild of InsertChargingTask: a fresh queue holding only the charging task, into
   * which every task of the old queue is dequeued in turn.
   */
  method RequeueBehind(chargingTask: TaskCommand, queue: seq<TaskCommand>) returns (rebuilt: seq<TaskCommand>)
    ensures |rebuilt| == |queue| + 1
    ensures rebuilt[0] == chargingTask && rebuilt[1..] == queue
  {
    var pending := queue;
    rebuilt := [chargingTask];
    while |pending| > 0
      invariant |rebuilt| >= 1 && rebuilt[0] == chargingTask
      invariant rebuilt[1..] + pending == queue
    {
      assert pending == [pending[0]] + pending[1..];
      rebuilt := rebuilt + [pending[0]];
      pending := pending[1..];
    }
  }

  // ------------------------------------------------------------------ battery

  /** The battery after one frame: battery − drainRate·dt, clamped to [0, 100]. */
  function DrainedBattery(battery: real, drainRate: real, dt: real): (b: real)
    ensures 0.0 <= b <= FullBattery
    ensures 0.0 <= battery - drainRate * dt <= FullBattery ==> b == battery - drainRate * dt
    ensures battery - drainRate * dt < 0.0 ==> b == 0.0
    ensures battery - drainRate * dt > FullBattery ==> b == FullBattery
    ensures 0.0 <= battery <= FullBattery && dt == 0.0 ==> b == battery
    ensures 0.0 <= battery && 0.0 <= drainRate && 0.0 <= dt ==> b <= battery || b == FullBattery
  {
    Clamp(battery - drainRate * dt, 0.0, FullBattery)
  }

  /** UpdateAGVState on one vehicle: drain the battery, then queue a priority charging task when low. */
  function EnergyUpdate(agv: AGVData, drainRate: real, threshold: real, dt: real, env: Environment): (r: AGVData)
    ensures r.id == agv.id && r.position == agv.position && r.currentTask == agv.currentTask
    ensures r.battery == DrainedBattery(agv.battery, drainRate, dt)
    ensures |r.taskQueue| > |agv.taskQueue| <==>
              r.battery < threshold && agv.currentTask != Charging && !HasChargingTask(agv)
    ensures |r.taskQueue| > |agv.taskQueue| ==>
              && |r.taskQueue| == |agv.taskQueue| + 1
              && r.taskQueue[0] == ChargingTaskFor(agv, env)
              && r.taskQueue[1..] == agv.taskQueue
    ensures |r.taskQueue| <= |agv.taskQueue| ==> r.taskQueue == agv.taskQueue
  {
    var drained := agv.(battery := DrainedBattery(agv.battery, drainRate, dt));
    if drained.battery < threshold && drained.currentTask != Charging && !HasChargingTask(drained) then
      drained.(taskQueue := [ChargingTaskFor(drained, env)] + drained.taskQueue)
    else
      drained
  }

  /** The charge guard keeps at most one charging task in a queue that had at most one. */
  lemma EnergyUpdateKeepsOneChargingTask(agv: AGVData, drainRate: real, threshold: real, dt: real, env: Environment)
    requires ChargingTaskCount(agv.taskQueue) <= 1
    ensures ChargingTaskCount(EnergyUpdate(agv, drainRate, threshold, dt, env).taskQueue) <= 1
  {
    var r := EnergyUpdate(agv, drainRate, threshold, dt, env);
    if |r.taskQueue| > |agv.taskQueue| {
      NoChargingTaskCountsZero(agv.taskQueue);
      assert r.taskQueue == [r.taskQueue[0]] + agv.taskQueue;
    }
  }

  /** A charging task inserted by the battery check lands in a queue without priority tasks. */
  lemma EnergyUpdateKeepsPriorityAtFront(agv: AGVData, drainRate: real, threshold: real, dt: real, env: Environment)
    requires PriorityAtFront(agv.taskQueue)
    ensures PriorityAtFront(EnergyUpdate(agv, drainRate, threshold, dt, env).taskQueue)
  {
    var r := EnergyUpdate(agv, drainRate, threshold, dt, env);
    if |r.taskQueue| > |agv.taskQueue| {
      forall i | 0 < i < |r.taskQueue|
        ensures !r.taskQueue[i].isPriority
      {
        assert r.taskQueue[i] == agv.taskQueue[i - 1];
        assert agv.taskQueue[i - 1] in agv.taskQueue;
      }
    }
  }

  // ------------------------------------------------------------------ task execution

  /**
   * The waypoint ExecuteTask walks to next: the first one at or after `from` that the vehicle
   * has not reached. The `foreach` passes over every waypoint already within tolerance.
   */
  function FirstUnreached(position: Vector3, path: seq<Vector3>, from: nat, arrived: (Vector3, Vector3) -> bool): (k: nat)
    requires from <= |path|
    ensures from <= k <= |path|
    ensures forall j | from <= j < k :: arrived(position, path[j])
    ensures k < |path| ==> !arrived(position, path[k])
    decreases |path| - from
  {
    if from == |path| || !arrived(position, path[from]) then from
    else FirstUnreached(position, path, from + 1, arrived)
  }

  /** The `foreach (var point in task.path) while (Distance > 0.1)` scan, from a resumed waypoint. */
  method SkipReachedWaypoints(position: Vector3, path: seq<Vector3>, from: nat, arrived: (Vector3, Vector3) -> bool)
    returns (k: nat)
    requires from <= |path|
    ensures k == FirstUnreached(position, path, from, arrived)
  {
    k := from;
    while k < |path| && arrived(position, path[k])
      invariant from <= k <= |path|
      invariant FirstUnreached(position, path, k, arrived) == FirstUnreached(position, path, from, arrived)
      decreases |path| - k
    {
      k := k + 1;
    }
  }

  /**
   * One run of an ExecuteTask coroutine up to its next `yield return null`, or to its end: the
   * vehicle either takes one MoveTowards step to the next unreached waypoint (and the coroutine
   * stays suspended there), or has passed every waypoint and finishes the task.
   */
  function Resume(agv: AGVData, e: Execution, dt: real, env: Environment): (r: (AGVData, Option<Execution>))
    requires e.waypoint <= |e.task.path|
    ensures r.0.id == agv.id && r.0.taskQueue == agv.taskQueue
    ensures r.1.Some? ==>
              && r.1.value.task == e.task
              && e.waypoint <= r.1.value.waypoint < |e.task.path|
              && r.1.value.waypoint == FirstUnreached(agv.position, e.task.path, e.waypoint, env.arrived)
              && !env.arrived(agv.position, e.task.path[r.1.value.waypoint])
              && r.0 == agv.(position := env.moveTowards(agv.position, e.task.path[r.1.value.waypoint], Speed * dt))
    ensures r.1.None? ==>
              && (forall j | e.waypoint <= j < |e.task.path| :: env.arrived(agv.position, e.task.path[j]))
              && r.0.currentTask == Idle && r.0.position == agv.position
              && r.0.battery == (if e.task.taskType == Charging then FullBattery else agv.battery)
    ensures e.waypoint == |e.task.path| ==> r.1.None?
  {
    var k := FirstUnreached(agv.position, e.task.path, e.waypoint, env.arrived);
    if k < |e.task.path| then
      (agv.(position := env.moveTowards(agv.position, e.task.path[k], Speed * dt)), Some(Execution(e.task, k)))
    else
      (agv.(battery := if e.task.taskType == Charging then FullBattery else agv.battery, currentTask := Idle), None)
  }

  /** Every suspended coroutine of one vehicle resumed once, oldest first; finished ones drop out. */
  function ResumeAll(agv: AGVData, running: seq<Execution>, dt: real, env: Environment): (r: (AGVData, seq<Execution>))
    requires Resumable(running)
    ensures r.0.id == agv.id && r.0.taskQueue == agv.taskQueue
    ensures |r.1| <= |running|
    ensures forall e | e in r.1 :: e.waypoint < |e.task.path|
    ensures 0.0 <= agv.battery <= FullBattery ==> 0.0 <= r.0.battery <= FullBattery
    decreases |running|
  {
    if running == [] then (agv, [])
    else
      assert running[0] in running;
      assert forall e | e in running[1..] :: e in running;
      var first := Resume(agv, running[0], dt, env);
      var rest := ResumeAll(first.0, running[1..], dt, env);
      (rest.0, Suspended(first.1) + rest.1)
  }

  /** ExecuteTask from a suspension point to its next `yield return null`, or to its end. */
  method RunCoroutine(agv: AGVData, e: Execution, dt: real, env: Environment)
    returns (moved: AGVData, suspended: Option<Execution>)
    requires e.waypoint <= |e.task.path|
    ensures (moved, suspended) == Resume(agv, e, dt, env)
  {
    moved := agv;
    var task := e.task;
    var k := SkipReachedWaypoints(moved.position, task.path, e.waypoint, env.arrived);
    if k < |task.path| {
      moved := moved.(position := env.moveTowards(moved.position, task.path[k], Speed * dt));
      suspended := Some(Execution(task, k));
    } else {
      if task.taskType == Charging {
        moved := moved.(battery := FullBattery);
      }
      moved := moved.(currentTask := Idle);
      suspended := None;
    }
  }

  /** Unity resuming each suspended coroutine of one vehicle once, oldest first. */
  method ResumeEach(agv: AGVData, running: seq<Execution>, dt: real, env: Environment)
    returns (moved: AGVData, kept: seq<Execution>)
    requires Resumable(running)
    ensures (moved, kept) == ResumeAll(agv, running, dt, env)
  {
    moved, kept := agv, [];
    var pending := running;
    assert kept + ResumeAll(moved, pending, dt, env).1 == ResumeAll(moved, pending, dt, env).1;
    while pending != []
      invariant Resumable(pending)
      invariant var rest := ResumeAll(moved, pending, dt, env);
                ResumeAll(agv, running, dt, env) == (rest.0, kept + rest.1)
    {
      assert pending[0] in pending;
      assert forall e | e in pending[1..] :: e in pending;
      ghost var whole := ResumeAll(moved, pending, dt, env);
      var survivor;
      moved, survivor := RunCoroutine(moved, pending[0], dt, env);
      ghost var rest := ResumeAll(moved, pending[1..], dt, env);
      assert whole == (rest.0, Suspended(survivor) + rest.1);
      assert kept + whole.1 == (kept + Suspended(survivor)) + rest.1;
      kept := kept + Suspended(survivor);
      pending := pending[1..];
    }
    assert ResumeAll(moved, pending, dt, env) == (moved, []);
    assert kept + [] == kept;
  }

  /** The resumption of one vehicle's earlier coroutines, with the coroutine `start` begun this frame queued after them. */
  function AfterResume(agv: AGVData, running: seq<Execution>, start: Option<Execution>, dt: real, env: Environment)
    : (r: (AGVData, seq<Execution>))
    requires Resumable(running)
    requires start.Some? ==> start.value.waypoint < |start.value.task.path|
    ensures r.0.id == agv.id && r.0.taskQueue == agv.taskQueue
    ensures forall e | e in r.1 :: e.waypoint < |e.task.path|
  {
    var resumed := ResumeAll(agv, running, dt, env);
    (resumed.0, resumed.1 + Suspended(start))
  }

  /**
   * ProcessTaskQueue on one vehicle: an idle vehicle with queued work dequeues the head task,
   * takes its type as currentTask, and StartCoroutine runs the task up to its first yield.
   */
  function Dispatch(agv: AGVData, dt: real, env: Environment): (r: (AGVData, Option<Execution>))
    ensures !(agv.currentTask == Idle && |agv.taskQueue| > 0) ==> r == (agv, None)
    ensures agv.currentTask == Idle && |agv.taskQueue| > 0 ==>
              && r.0.taskQueue == agv.taskQueue[1..]
              && (r.1.Some? ==> r.0.currentTask == agv.taskQueue[0].taskType && r.1.value.task == agv.taskQueue[0]
                                && r.0.battery == agv.battery)
              && (r.1.None? ==> r.0.currentTask == Idle)
    ensures agv.currentTask == Idle && |agv.taskQueue| > 0 && r.1.None? ==>
              && r.0.position == agv.position
              && r.0.battery == (if agv.taskQueue[0].taskType == Charging then FullBattery else agv.battery)
    ensures agv.currentTask == Idle && |agv.taskQueue| > 0 && r.1.Some? ==>
              && r.1.value.waypoint == FirstUnreached(agv.position, agv.taskQueue[0].path, FirstWaypoint, env.arrived)
              && r.1.value.waypoint < |agv.taskQueue[0].path|
              && r.0.position == env.moveTowards(agv.position, agv.taskQueue[0].path[r.1.value.waypoint], Speed * dt)
    ensures r.0.id == agv.id
    ensures r.1.Some? ==> r.1.value.waypoint < |r.1.value.task.path|
    ensures 0.0 <= agv.battery <= FullBattery ==> 0.0 <= r.0.battery <= FullBattery
  {
    if agv.currentTask == Idle && |agv.taskQueue| > 0 then
      var head := agv.taskQueue[0];
      Resume(agv.(currentTask := head.taskType, taskQueue := agv.taskQueue[1..]), Execution(head, FirstWaypoint), dt, env)
    else
      (agv, None)
  }

  /**
   * One frame for one vehicle: the battery update of Update's first loop, the dispatch of
   * ProcessTaskQueue, then the resumption of the coroutines suspended in earlier frames. A
   * coroutine started this frame joins the suspended ones after them.
   */
  function FrameUpdate(agv: AGVData, running: seq<Execution>, drainRate: real, threshold: real, dt: real, env: Environment)
    : (r: (AGVData, seq<Execution>))
    requires Resumable(running)
    ensures r.0.id == agv.id
    ensures 0.0 <= r.0.battery <= FullBattery
    ensures forall e | e in r.1 :: e.waypoint < |e.task.path|
  {
    var charged := EnergyUpdate(agv, drainRate, threshold, dt, env);
    var dispatched := Dispatch(charged, dt, env);
    AfterResume(dispatched.0, running, dispatched.1, dt, env)
  }

  /** A frame keeps priority tasks at the head of the queue. */
  lemma FrameKeepsPriorityAtFront(agv: AGVData, running: seq<Execution>, drainRate: real, threshold: real, dt: real, env: Environment)
    requires Resumable(running)
    requires PriorityAtFront(agv.taskQueue)
    ensures PriorityAtFront(FrameUpdate(agv, running, drainRate, threshold, dt, env).0.taskQueue)
  {
    var charged := EnergyUpdate(agv, drainRate, threshold, dt, env);
    EnergyUpdateKeepsPriorityAtFront(agv, drainRate, threshold, dt, env);
    var q := charged.taskQueue;
    if charged.currentTask == Idle && |q| > 0 {
      forall i | 0 <= i < |q[1..]|
        ensures !q[1..][i].isPriority
      {
        assert q[1..][i] == q[i + 1];
      }
    }
  }

  /** A frame never leaves two charging tasks queued where there was at most one. */
  lemma FrameKeepsOneChargingTask(agv: AGVData, running: seq<Execution>, drainRate: real, threshold: real, dt: real, env: Environment)
    requires Resumable(running)
    requires ChargingTaskCount(agv.taskQueue) <= 1
    ensures ChargingTaskCount(FrameUpdate(agv, running, drainRate, threshold, dt, env).0.taskQueue) <= 1
  {
    var charged := EnergyUpdate(agv, drainRate, threshold, dt, env);
    EnergyUpdateKeepsOneChargingTask(agv, drainRate, threshold, dt, env);
  }

  /** One active task at a time: Idle exactly when no coroutine runs, else one coroutine running currentTask. */
  predicate SingleActiveTask(agv: AGVData, running: seq<Execution>) {
    && (agv.currentTask == Idle <==> running == [])
    && |running| <= 1
    && forall e | e in running :: e.task.taskType == agv.currentTask
  }

  /** While no Idle-typed task is ever queued, a frame keeps at most one task active per vehicle. */
  lemma FrameKeepsSingleActiveTask(agv: AGVData, running: seq<Execution>, drainRate: real, threshold: real, dt: real, env: Environment)
    requires Resumable(running)
    requires SingleActiveTask(agv, running) && NoIdleTasks(agv.taskQueue)
    ensures var r := FrameUpdate(agv, running, drainRate, threshold, dt, env);
            SingleActiveTask(r.0, r.1) && NoIdleTasks(r.0.taskQueue)
  {
    var charged := EnergyUpdate(agv, drainRate, threshold, dt, env);
    assert NoIdleTasks(charged.taskQueue) by {
      if |charged.taskQueue| > |agv.taskQueue| {
        assert charged.taskQueue == [charged.taskQueue[0]] + agv.taskQueue;
      }
    }
    var (dispatched, started) := Dispatch(charged, dt, env);
    if charged.currentTask == Idle && |charged.taskQueue| > 0 {
      assert charged.taskQueue[0] in charged.taskQueue;
      assert forall t | t in charged.taskQueue[1..] :: t in charged.taskQueue;
    }
    if running == [] {
      assert ResumeAll(dispatched, running, dt, env) == (dispatched, []);
      if started.Some? {
        assert dispatched.currentTask == charged.taskQueue[0].taskType != Idle;
      }
    } else {
      assert dispatched == charged && started.None?;
      var (moved, kept) := Resume(charged, running[0], dt, env);
      assert running[1..] == [];
      assert ResumeAll(moved, running[1..], dt, env) == (moved, []);
      assert running[0] in running;
    }
  }

  // ------------------------------------------------------------------ faults

  /** PathContainsNode: the node lookup is a stub in the source and answers false for every path. */
  function PathContainsNode(path: seq<Vector3>, nodeId: int): (r: bool)
    ensures !r
  {
    false
  }

  // ------------------------------------------------------------------ the scheduler

  /**
   * The scheduler's state invariant: every registered vehicle is enumerated exactly once, has its
   * own id, keeps priority tasks at the head of its queue, and has a list of coroutines.
   */
  ghost predicate Registry(agvData: map<int, AGVData>, order: seq<int>, executions: map<int, seq<Execution>>) {
    && agvData.Keys == executions.Keys
    && (forall id | id in agvData :: id in order)
    && (forall i | 0 <= i < |order| :: order[i] in agvData)
    && (forall i, j | 0 <= i < j < |order| :: order[i] != order[j])
    && (forall id | id in agvData :: agvData[id].id == id && PriorityAtFront(agvData[id].taskQueue))
    && (forall id | id in executions :: Resumable(executions[id]))
  }

  /** Replacing one registered vehicle and its coroutines by well-formed ones keeps the invariant. */
  lemma ReplaceKeepsRegistry(agvData: map<int, AGVData>, order: seq<int>, executions: map<int, seq<Execution>>,
                             id: int, agv: AGVData, running: seq<Execution>)
    requires Registry(agvData, order, executions) && id in agvData
    requires agv.id == id && PriorityAtFront(agv.taskQueue) && Resumable(running)
    ensures Registry(agvData[id := agv], order, executions[id := running])
  {
  }

  /** Registering a vehicle (new or known) with an empty queue and no coroutines keeps the invariant. */
  lemma AddKeepsRegistry(agvData: map<int, AGVData>, order: seq<int>, executions: map<int, seq<Execution>>,
                         id: int, agv: AGVData)
    requires Registry(agvData, order, executions)
    requires agv.id == id && agv.taskQueue == []
    ensures Registry(agvData[id := agv], if id in agvData then order else order + [id], executions[id := []])
  {
    var order' := if id in agvData then order else order + [id];
    assert forall i | 0 <= i < |order'| :: order'[i] == id || order'[i] in agvData;
    assert forall i, j | 0 <= i < j < |order'| :: order'[i] != order'[j];
  }

  class TaskScheduler {
    /** Inspector setting `batteryThreshold` (15 by default). */
    const batteryThreshold: real
    /** Inspector setting `batteryDrainRate`, percent per second (0.5 by default). */
    const batteryDrainRate: real
    /** The registry `agvData`. */
    var agvData: map<int, AGVData>
    /** The order in which the registry enumerates its vehicles: first registration first. */
    var order: seq<int>
    /** The ExecuteTask coroutines suspended at a `yield return null`, per vehicle, oldest first. */
    var executions: map<int, seq<Execution>>

    ghost predicate Valid()
      reads this
    {
      Registry(agvData, order, executions)
    }

    constructor (batteryThreshold: real, batteryDrainRate: real)
      ensures Valid()
      ensures this.batteryThreshold == batteryThreshold && this.batteryDrainRate == batteryDrainRate
      ensures agvData == map[] && order == [] && executions == map[]
    {
      this.batteryThreshold := batteryThreshold;
      this.batteryDrainRate := batteryDrainRate;
      agvData := map[];
      order := [];
      executions := map[];
    }

    /** Start: registers the test vehicle 1 at the origin with a full battery. */
    method Start()
      requires Valid()
      modifies this
      ensures Valid()
      ensures agvData == old(agvData)[1 := AGVData(1, Origin, FullBattery, Idle, [])]
      ensures order == if 1 in old(agvData) then old(order) else old(order) + [1]
      ensures executions == old(executions)[1 := []]
    {
      AddAGV(1, Origin, FullBattery);
    }

    /**
     * AddAGV: always (re)places the entry for `id` with an idle vehicle and an empty queue; a new
     * id is enumerated last, a known one keeps its place. A coroutine still running for a
     * replaced vehicle only moves the orphaned old entry, which the registry no longer reaches,
     * so it is dropped.
     */
    method AddAGV(id: int, startPos: Vector3, startBattery: real)
      requires Valid()
      modifies this
      ensures Valid()
      ensures agvData == old(agvData)[id := AGVData(id, startPos, startBattery, Idle, [])]
      ensures order == if id in old(agvData) then old(order) else old(order) + [id]
      ensures executions == old(executions)[id := []]
    {
      var registered := AGVData(id, startPos, startBattery, Idle, []);
      ghost var agv0, order0, exec0 := agvData, order, executions;
      order := if id in agvData then order else order + [id];
      agvData := agvData[id := registered];
      executions := executions[id := []];
      AddKeepsRegistry(agv0, order0, exec0, id, registered);
    }

    /** AddNewTask: an unknown id is ignored; otherwise one planned task joins the tail of the queue. */
    method AddNewTask(agvId: int, taskType: TaskType, target: Vector3, env: Environment)
      requires Valid()
      modifies this
      ensures Valid()
      ensures agvId !in old(agvData) ==> agvData == old(agvData)
      ensures agvId in old(agvData) ==>
                var agv := old(agvData)[agvId];
                agvData == old(agvData)[agvId := agv.(taskQueue := agv.taskQueue +
                  [TaskCommand(taskType, target, env.findPath(agv.position, target), false)])]
      ensures order == old(order) && executions == old(executions)
    {
      if agvId !in agvData {
        return;
      }
      var agv := agvData[agvId];
      var newTask := TaskCommand(taskType, target, env.findPath(agv.position, target), false);
      agvData := agvData[agvId := agv.(taskQueue := agv.taskQueue + [newTask])];
    }

    /** UpdateAGVState: drain and clamp the battery, then insert a charging task when low. */
    method UpdateAGVState(id: int, dt: real, env: Environment)
      requires Valid() && id in agvData
      modifies this
      ensures Valid()
      ensures agvData == old(agvData)[id := EnergyUpdate(old(agvData)[id], batteryDrainRate, batteryThreshold, dt, env)]
      ensures order == old(order) && executions == old(executions)
    {
      EnergyUpdateKeepsPriorityAtFront(agvData[id], batteryDrainRate, batteryThreshold, dt, env);
      var agv := agvData[id];
      agv := agv.(battery := agv.battery - batteryDrainRate * dt);
      agv := agv.(battery := Clamp(agv.battery, 0.0, FullBattery));
      agvData := agvData[id := agv];
      if agv.battery < batteryThreshold && agv.currentTask != Charging && !HasChargingTask(agv) {
        InsertChargingTask(id, env);
      }
    }

    /** InsertChargingTask: the charging task goes to the head, the old queue follows in order. */
    method InsertChargingTask(id: int, env: Environment)
      requires id in agvData
      modifies this
      ensures var agv := old(agvData)[id];
              agvData == old(agvData)[id := agv.(taskQueue := [ChargingTaskFor(agv, env)] + agv.taskQueue)]
      ensures order == old(order) && executions == old(executions)
    {
      var agv := agvData[id];
      var nearestCharger := ChargingStation;
      var chargingTask := TaskCommand(Charging, nearestCharger, env.findPath(agv.position, nearestCharger), true);
      var rebuilt := RequeueBehind(chargingTask, agv.taskQueue);
      assert rebuilt == [chargingTask] + agv.taskQueue;
      agvData := agvData[id := agv.(taskQueue := rebuilt)];
    }

    /** The first loop of Update: UpdateAGVState for every registered vehicle. */
    method UpdateAllAGVStates(dt: real, env: Environment)
      requires Valid()
      modifies this
      ensures Valid()
      ensures agvData.Keys == old(agvData).Keys
      ensures forall id | id in agvData ::
                agvData[id] == EnergyUpdate(old(agvData)[id], batteryDrainRate, batteryThreshold, dt, env)
      ensures order == old(order) && executions == old(executions)
    {
      for i := 0 to |order|
        invariant Valid()
        invariant agvData.Keys == old(agvData).Keys && order == old(order) && executions == old(executions)
        invariant forall j | 0 <= j < i ::
                    agvData[order[j]] == EnergyUpdate(old(agvData)[order[j]], batteryDrainRate, batteryThreshold, dt, env)
        invariant forall j | i <= j < |order| :: agvData[order[j]] == old(agvData)[order[j]]
      {
        UpdateAGVState(order[i], dt, env);
      }
    }

    /** The body of ProcessTaskQueue's loop for one vehicle. */
    method DispatchVehicle(id: int, dt: real, env: Environment) returns (started: Option<Execution>)
      requires Valid() && id in agvData
      modifies this
      ensures Valid()
      ensures agvData == old(agvData)[id := Dispatch(old(agvData)[id], dt, env).0]
      ensures started == Dispatch(old(agvData)[id], dt, env).1
      ensures order == old(order) && executions == old(executions)
    {
      var agv := agvData[id];
      if agv.currentTask == Idle && |agv.taskQueue| > 0 {
        var task := agv.taskQueue[0];
        assert PriorityAtFront(agv.taskQueue[1..]) by {
          forall k | 0 <= k < |agv.taskQueue[1..]| ensures !agv.taskQueue[1..][k].isPriority {
            assert agv.taskQueue[1..][k] == agv.taskQueue[k + 1];
          }
        }
        agv := agv.(currentTask := task.taskType, taskQueue := agv.taskQueue[1..]);
        agv, started := RunCoroutine(agv, Execution(task, FirstWaypoint), dt, env);
        agvData := agvData[id := agv];
      } else {
        started := None;
      }
    }

    /**
     * ProcessTaskQueue: every idle vehicle with queued work dequeues its head task and starts
     * its coroutine. The coroutines this leaves suspended are returned, per vehicle.
     */
    method ProcessTaskQueue(dt: real, env: Environment) returns (started: map<int, Option<Execution>>)
      requires Valid()
      modifies this
      ensures Valid()
      ensures agvData.Keys == old(agvData).Keys && started.Keys == agvData.Keys
      ensures forall id | id in agvData :: (agvData[id], started[id]) == Dispatch(old(agvData)[id], dt, env)
      ensures order == old(order) && executions == old(executions)
    {
      started := map id | id in agvData :: None;
      for i := 0 to |order|
        invariant Valid()
        invariant agvData.Keys == old(agvData).Keys && started.Keys == agvData.Keys
        invariant order == old(order) && executions == old(executions)
        invariant forall j | 0 <= j < i :: (agvData[order[j]], started[order[j]]) == Dispatch(old(agvData)[order[j]], dt, env)
        invariant forall j | i <= j < |order| :: agvData[order[j]] == old(agvData)[order[j]]
      {
        var suspended := DispatchVehicle(order[i], dt, env);
        started := started[order[i] := suspended];
      }
    }

    /** Unity resuming, once, every coroutine of one vehicle suspended in an earlier frame; `start` joins after them. */
    method ResumeVehicle(id: int, start: Option<Execution>, dt: real, env: Environment)
      requires id in agvData && id in executions
      requires Resumable(executions[id])
      requires start.Some? ==> start.value.waypoint < |start.value.task.path|
      requires Valid()
      modifies this
      ensures Valid()
      ensures var r := AfterResume(old(agvData)[id], old(executions)[id], start, dt, env);
              agvData == old(agvData)[id := r.0] && executions == old(executions)[id := r.1]
      ensures order == old(order)
    {
      var agv, kept := ResumeEach(agvData[id], executions[id], dt, env);
      ReplaceKeepsRegistry(agvData, order, executions, id, agv, kept + Suspended(start));
      agvData := agvData[id := agv];
      executions := executions[id := kept + Suspended(start)];
    }

    /** The coroutine resumption that follows Update in a frame, for every vehicle. */
    method ResumeCoroutines(started: map<int, Option<Execution>>, dt: real, env: Environment)
      requires Valid() && started.Keys == agvData.Keys
      requires forall id | id in started :: started[id].Some? ==> started[id].value.waypoint < |started[id].value.task.path|
      modifies this
      ensures Valid()
      ensures agvData.Keys == old(agvData).Keys && order == old(order)
      ensures forall id | id in agvData ::
                (agvData[id], executions[id]) == AfterResume(old(agvData)[id], old(executions)[id], started[id], dt, env)
    {
      ghost var agv0, exec0 := agvData, executions;
      for i := 0 to |order|
        invariant Valid()
        invariant agvData.Keys == agv0.Keys && order == old(order)
        invariant forall j | 0 <= j < i ::
                    (agvData[order[j]], executions[order[j]])
                    == AfterResume(agv0[order[j]], exec0[order[j]], started[order[j]], dt, env)
        invariant forall j | i <= j < |order| ::
                    agvData[order[j]] == agv0[order[j]] && executions[order[j]] == exec0[order[j]]
      {
        var id := order[i];
        ghost var agvBefore, execBefore := agvData, executions;
        ResumeVehicle(id, started[id], dt, env);
        assert agvData == agvBefore[id := agvData[id]] && executions == execBefore[id := executions[id]];
        assert forall j | 0 <= j < |order| && j != i :: order[j] != id;
      }
    }

    /** One frame: Update's two loops, then the resumption of earlier coroutines. */
    method Update(dt: real, env: Environment)
      requires Valid()
      modifies this
      ensures Valid()
      ensures agvData.Keys == old(agvData).Keys && order == old(order)
      ensures forall id | id in agvData ::
                (agvData[id], executions[id])
                == FrameUpdate(old(agvData)[id], old(executions)[id], batteryDrainRate, batteryThreshold, dt, env)
      ensures forall id | id in agvData :: 0.0 <= agvData[id].battery <= FullBattery
    {
      UpdateAllAGVStates(dt, env);
      var started := ProcessTaskQueue(dt, env);
      ResumeCoroutines(started, dt, env);
    }

    /**
     * HandleFaultEvent: a vehicle with an active task whose path holds the blocked node would get
     * a path planned around it. PathContainsNode answers false, so nothing ever changes.
     */
    method HandleFaultEvent(nodeId: int, env: Environment)
      requires Valid()
      modifies this
      ensures agvData == old(agvData) && order == old(order) && executions == old(executions)
    {
      for i := 0 to |order|
        invariant Valid()
        invariant agvData == old(agvData) && order == old(order) && executions == old(executions)
      {
        var id := order[i];
        var agv := agvData[id];
        var running := executions[id];
        if agv.currentTask != Idle && |running| > 0 {
          var active := running[|running| - 1];
          var earlier := running[..|running| - 1];
          var replanned :=
            if PathContainsNode(active.task.path, nodeId) then
              earlier + [Execution(active.task.(path := env.findPathAvoiding(agv.position, active.task.targetPosition, [nodeId])), FirstWaypoint)]
            else running;
          executions := executions[id := replanned];
        }
      }
    }
  }

  // ------------------------------------------------------------------ scenarios

  /** `n` frames of one vehicle, from a given state. */
  function Frames(agv: AGVData, running: seq<Execution>, n: nat, drainRate: real, threshold: real, dt: real, env: Environment)
    : (r: (AGVData, seq<Execution>))
    requires Resumable(running)
    ensures Resumable(r.1)
  {
    if n == 0 then (agv, running)
    else
      var (before, suspended) := Frames(agv, running, n - 1, drainRate, threshold, dt, env);
      FrameUpdate(before, suspended, drainRate, threshold, dt, env)
  }

  /** The idle test vehicle loses 0.5 per one-second frame and stays without tasks for 170 frames. */
  lemma {:induction false} IdleDrain(env: Environment, n: nat)
    requires n <= 170
    ensures Frames(AGVData(1, Origin, 100.0, Idle, []), [], n, 0.5, 15.0, 1.0, env)
            == (AGVData(1, Origin, 100.0 - 0.5 * n as real, Idle, []), [])
  {
    if n > 0 {
      IdleDrain(env, n - 1);
      var previous := AGVData(1, Origin, 100.0 - 0.5 * (n - 1) as real, Idle, []);
      var level := 100.0 - 0.5 * n as real;
      assert 15.0 <= level <= FullBattery;
      assert DrainedBattery(previous.battery, 0.5, 1.0) == level;
      var charged := EnergyUpdate(previous, 0.5, 15.0, 1.0, env);
      assert charged == previous.(battery := level);
      assert Dispatch(charged, 1.0, env) == (charged, None);
      assert ResumeAll(charged, [], 1.0, env) == (charged, []);
      var none: Option<Execution> := None;
      var nothing: seq<Execution> := [];
      assert Suspended(none) == nothing;
      var r := ResumeAll(charged, nothing, 1.0, env);
      assert r == (charged, nothing);
      assert r.1 + Suspended(none) == nothing;
      assert AfterResume(charged, nothing, none, 1.0, env) == (charged, nothing);
    }
  }

  /**
   * Frame 171 takes the battery to 14.5, below the threshold 15: a priority charging task is
   * queued and dispatched in the same frame. The vehicle is then charging, or, if the path to
   * the charger is already walked, full again.
   */
  lemma ChargingAfter171Frames(env: Environment)
    ensures var (agv, running) := Frames(AGVData(1, Origin, 100.0, Idle, []), [], 171, 0.5, 15.0, 1.0, env);
            var chargingTask := TaskCommand(Charging, ChargingStation, env.findPath(Origin, ChargingStation), true);
            && agv.taskQueue == []
            && ((agv.currentTask == Charging && agv.battery == 14.5 && |running| == 1 && running[0].task == chargingTask)
                || (agv.currentTask == Idle && agv.battery == FullBattery && running == []))
  {
    IdleDrain(env, 170);
  }

  /**
   * A queued task of type Idle leaves currentTask Idle while its coroutine runs, so the next
   * frame dispatches the following task too: two coroutines then drive the same vehicle.
   */
  lemma IdleTaskLetsTwoTasksRun(env: Environment, far: Vector3)
    requires forall p :: !env.arrived(p, far)
    ensures var idleTask := TaskCommand(Idle, far, [far], false);
            var transport := TaskCommand(Transport, far, [far], false);
            var r := Frames(AGVData(1, Origin, 100.0, Idle, [idleTask, transport]), [], 2, 0.5, 15.0, 1.0, env);
            && r.0.currentTask == Transport && r.0.taskQueue == []
            && r.1 == [Execution(idleTask, FirstWaypoint), Execution(transport, FirstWaypoint)]
  {
    var idleTask := TaskCommand(Idle, far, [far], false);
    var transport := TaskCommand(Transport, far, [far], false);
    var agv := AGVData(1, Origin, 100.0, Idle, [idleTask, transport]);
    var nothing: seq<Execution> := [];
    assert Frames(agv, nothing, 0, 0.5, 15.0, 1.0, env) == (agv, nothing);

    // frame 1: the Idle-typed task starts and stays suspended before its only waypoint
    var c1 := EnergyUpdate(agv, 0.5, 15.0, 1.0, env);
    assert DrainedBattery(100.0, 0.5, 1.0) == 99.5;
    assert c1.taskQueue == agv.taskQueue && c1.currentTask == Idle;
    var first := Execution(idleTask, FirstWaypoint);
    var d1 := Dispatch(c1, 1.0, env);
    assert d1.1 == Some(first) && d1.0.currentTask == Idle && d1.0.taskQueue == [transport];
    assert ResumeAll(d1.0, nothing, 1.0, env) == (d1.0, nothing);
    assert Suspended(d1.1) == [first] && nothing + [first] == [first];
    assert AfterResume(d1.0, nothing, d1.1, 1.0, env) == (d1.0, [first]);
    assert FrameUpdate(agv, nothing, 0.5, 15.0, 1.0, env) == (d1.0, [first]);
    var f1 := Frames(agv, nothing, 1, 0.5, 15.0, 1.0, env);
    assert f1 == (d1.0, [first]);

    // frame 2: the vehicle still looks idle, so the transport task starts beside the first one
    assert d1.0.battery == 99.5 && DrainedBattery(99.5, 0.5, 1.0) == 99.0;
    var c2 := EnergyUpdate(d1.0, 0.5, 15.0, 1.0, env);
    assert c2.taskQueue == [transport] && c2.currentTask == Idle;
    var second := Execution(transport, FirstWaypoint);
    var d2 := Dispatch(c2, 1.0, env);
    assert d2.1 == Some(second) && d2.0.currentTask == Transport && d2.0.taskQueue == [];
    var resumed := ResumeAll(d2.0, [first], 1.0, env);
    var step := Resume(d2.0, first, 1.0, env);
    assert step.1 == Some(first) && step.0.currentTask == Transport;
    assert [first][1..] == nothing;
    assert ResumeAll(step.0, nothing, 1.0, env) == (step.0, nothing);
    assert resumed.1 == [first] && resumed.0.currentTask == Transport && resumed.0.taskQueue == [];
  }
}
