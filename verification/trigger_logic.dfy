/**
  The avatar trigger's scheduling logic as functions on one state value: which
  pointers may interact, how enter and exit tasks run at once or wait in the
  pending lists, how the polled checker fires due tasks, and how stay tasks are
  registered and run once per fixed tick. Time, the pointer's current value and
  its normalized position inside the trigger volume arrive as inputs.
*/
module TriggerLogic {

  import opened Common
  import opened Parameters

  datatype UpdateMethod = Override | Add | Subtract | Toggle | SetFromPointer

  /** An enter or exit task of an advanced trigger. */
  datatype TriggerTask = TriggerTask(settingName: string, updateMethod: UpdateMethod, settingValue: real, delay: real, holdTime: real)

  datatype StayMethod = SetFromPosition | SetFromDistance | StayAdd | StaySubtract | StaySetFromPointer

  /** A stay task of an advanced trigger. */
  datatype TriggerStayTask = TriggerStayTask(settingName: string, updateMethod: StayMethod, minValue: real, maxValue: real)

  datatype SampleDirection = XPositive | XNegative | YPositive | YNegative | ZPositive | ZNegative

  /**
    The trigger component's settings. The allow-lists hold hash codes: those of the
    referenced pointer components and those of the allowed type strings.
  */
  datatype TriggerConfig = TriggerConfig(
    useAdvancedTrigger: bool,
    settingName: string,
    settingValue: real,
    isLocalInteractable: bool,
    isNetworkInteractable: bool,
    enterTasks: seq<TriggerTask>,
    exitTasks: seq<TriggerTask>,
    stayTasks: seq<TriggerStayTask>,
    allowedPointer: seq<int>,
    allowedTypes: seq<int>,
    sampleDirection: SampleDirection,
    areaSize: Vec3,
    areaOffset: Vec3)

  /**
    A pointer wrapper, by what stays fixed after it starts: its own hash code (its
    identity), the hash code of the pointer component it wraps, the hash of that
    pointer's type string and the runtime hash of the avatar it sits on.
  */
  datatype Pointer = Pointer(wrapperId: int, pointerId: int, typeHash: int, runtimeHash: int)

  /**
    What the engine reports about a pointer at one moment: its value and, for the
    stay sampling, its position relative to the trigger volume as three inverse-lerp
    fractions, with the Euclidean length of the centred position vector.
  */
  datatype PointerReading = PointerReading(value: real, x: real, y: real, z: real, magnitude: real)

  /** A reading whose length is the Euclidean length of its centred position vector, as the engine computes it. */
  predicate WellFormedReading(r: PointerReading)
  {
    r.magnitude >= 0.0 && Square(r.magnitude) == CentredSquare(r)
  }

  function Square(x: real): real
  {
    x * x
  }

  /** The readings the engine can report. */
  type Reading = r: PointerReading | WellFormedReading(r) witness PointerReading(0.0, 0.5, 0.5, 0.5, 0.0)

  /** A pointer at rest at the centre of the volume, with value 0. */
  const CentreReading: Reading := PointerReading(0.0, 0.5, 0.5, 0.5, 0.0)

  /** The frame an event or tick happens in: the clock, the fixed step and what each pointer reads. */
  datatype Moment = Moment(now: real, fixedDeltaTime: real, read: Pointer -> Reading)

  /** `ScheduledTask`. */
  datatype ScheduledTask = ScheduledTask(task: TriggerTask, executionTime: real)

  /** A registered stay task, by its position in the trigger's stay list (its identity) and its content. */
  datatype StayRef = StayRef(index: nat, task: TriggerStayTask)

  /** A coroutine slot: whether a handle is stored, and whether the coroutine behind it still runs. */
  datatype Coroutine = Coroutine(handle: bool, alive: bool)

  const Idle := Coroutine(false, false)

  /** Everything the trigger events change: the parameter values, both pairs of parallel lists and both coroutine slots. */
  datatype TriggerState = TriggerState(
    values: map<string, real>,
    taskPointers: seq<Pointer>,
    taskEntries: seq<ScheduledTask>,
    checker: Coroutine,
    stayPointers: seq<Pointer>,
    stayEntries: seq<StayRef>,
    runner: Coroutine)

  /** The parallel lists have equal lengths. */
  predicate Parallel(s: TriggerState)
  {
    |s.taskPointers| == |s.taskEntries| && |s.stayPointers| == |s.stayEntries|
  }

  // ---------------------------------------------------------------- admission

  /** `CheckPointerCanInteract`. */
  predicate CanInteract(cfg: TriggerConfig, runtimeHash: int, p: Pointer)
  {
    var isOnThisAvatar := p.runtimeHash == runtimeHash;
    (cfg.isLocalInteractable && isOnThisAvatar) || (cfg.isNetworkInteractable && !isOnThisAvatar)
  }

  /** The allow-list hash set built at setup: referenced pointers when there are any, allowed types otherwise. */
  function AllowedHashes(cfg: TriggerConfig): set<int>
  {
    if |cfg.allowedPointer| > 0 then set h | h in cfg.allowedPointer else set h | h in cfg.allowedTypes
  }

  /** Whether the set holds pointer references rather than type hashes. */
  predicate OnlyPointerReferences(cfg: TriggerConfig)
  {
    |cfg.allowedPointer| > 0
  }

  /** `CheckAdvancedPointerAllowed` as written: in reference mode it looks up the wrapper's own hash. */
  predicate AdvancedAllowedAsWritten(hashes: set<int>, onlyReferences: bool, p: Pointer)
  {
    |hashes| == 0 || (if onlyReferences then p.wrapperId else p.typeHash) in hashes
  }

  /** `CheckAdvancedPointerAllowed` as intended: in reference mode it looks up the wrapped pointer's hash. */
  predicate AdvancedAllowed(hashes: set<int>, onlyReferences: bool, p: Pointer)
  {
    |hashes| == 0 || (if onlyReferences then p.pointerId else p.typeHash) in hashes
  }

  /**
    The allow-list: with no entries every pointer passes; referenced pointers take
    priority and then the allowed types are never consulted; otherwise the type decides.
  */
  lemma AllowListPriority(cfg: TriggerConfig, p: Pointer)
    ensures |cfg.allowedPointer| == 0 && |cfg.allowedTypes| == 0 ==> AdvancedAllowed(AllowedHashes(cfg), OnlyPointerReferences(cfg), p)
    ensures |cfg.allowedPointer| > 0 ==>
      (AdvancedAllowed(AllowedHashes(cfg), OnlyPointerReferences(cfg), p) <==> p.pointerId in cfg.allowedPointer)
    ensures |cfg.allowedPointer| == 0 && |cfg.allowedTypes| > 0 ==>
      (AdvancedAllowed(AllowedHashes(cfg), OnlyPointerReferences(cfg), p) <==> p.typeHash in cfg.allowedTypes)
  {
    if |cfg.allowedPointer| > 0 {
      assert cfg.allowedPointer[0] in AllowedHashes(cfg);
    } else if |cfg.allowedTypes| > 0 {
      assert cfg.allowedTypes[0] in AllowedHashes(cfg);
    } else {
      assert AllowedHashes(cfg) == {};
    }
  }

  /**
    The reference allow-list as written admits no pointer whose wrapper hash differs
    from every referenced pointer component's hash: a pointer listed by reference is
    turned away, where the intended check lets it in.
  */
  lemma AllowListAsWrittenRejectsListedPointer()
    ensures var p := Pointer(7, 5, 0, 0);
      && !AdvancedAllowedAsWritten({5}, true, p)
      && AdvancedAllowed({5}, true, p)
  {
  }

  // ---------------------------------------------------------------- enter and exit tasks

  /** The delay before a task runs: its hold time counts only on enter. */
  function EffectiveDelay(task: TriggerTask, isEnter: bool): real
  {
    if isEnter then task.delay + task.holdTime else task.delay
  }

  /** `ExecuteTask`: `pointerValue` is the pointer's current value, or `None` for a null pointer. */
  function ExecuteTask(values: map<string, real>, task: TriggerTask, pointerValue: Option<real>): (r: map<string, real>)
    ensures r.Keys == values.Keys
    ensures forall n :: n in values && n != task.settingName ==> r[n] == values[n]
  {
    var name := task.settingName;
    match task.updateMethod
    case Override => Write(values, name, task.settingValue)
    case Add => Write(values, name, Read(values, name) + task.settingValue)
    case Subtract => Write(values, name, Read(values, name) - task.settingValue)
    case Toggle => Write(values, name, if Read(values, name) == 0.0 then 1.0 else 0.0)
    case SetFromPointer => if pointerValue.None? then values else Write(values, name, pointerValue.value)
  }

  /** An Add task followed by the matching Subtract task restores every parameter. */
  lemma AddThenSubtract(values: map<string, real>, name: string, amount: real, delay: real, holdTime: real, pv: Option<real>)
    ensures var add := TriggerTask(name, Add, amount, delay, holdTime);
      var sub := TriggerTask(name, Subtract, amount, delay, holdTime);
      ExecuteTask(ExecuteTask(values, add, pv), sub, pv) == values
  {
  }

  /** A Toggle writes 1 exactly when the parameter read 0, and toggling twice restores a 0 or a 1. */
  lemma ToggleTwice(values: map<string, real>, task: TriggerTask, pv: Option<real>)
    requires task.updateMethod == Toggle && task.settingName in values
    ensures ExecuteTask(values, task, pv)[task.settingName] == (if values[task.settingName] == 0.0 then 1.0 else 0.0)
    ensures values[task.settingName] == 0.0 || values[task.settingName] == 1.0 ==>
      ExecuteTask(ExecuteTask(values, task, pv), task, pv) == values
  {
  }

  /** With a null pointer a SetFromPointer task writes nothing; with a pointer it writes the pointer's value. */
  lemma SetFromPointerNeedsPointer(values: map<string, real>, task: TriggerTask, v: real)
    requires task.updateMethod == SetFromPointer
    ensures ExecuteTask(values, task, None) == values
    ensures task.settingName in values ==> ExecuteTask(values, task, Some(v))[task.settingName] == v
  {
  }

  /** The pending lists without the entries of one pointer, other entries in their order. */
  function Cancel(pointers: seq<Pointer>, entries: seq<ScheduledTask>, p: Pointer): (r: (seq<Pointer>, seq<ScheduledTask>))
    requires |pointers| == |entries|
    ensures |r.0| == |r.1| <= |pointers|
    decreases |pointers|
  {
    if pointers == [] then ([], [])
    else
      var rest := Cancel(pointers[1..], entries[1..], p);
      if pointers[0] == p then rest else ([pointers[0]] + rest.0, [entries[0]] + rest.1)
  }

  /** The entries waiting for pointer `q`, in list order. */
  function EntriesFor(pointers: seq<Pointer>, entries: seq<ScheduledTask>, q: Pointer): seq<ScheduledTask>
    requires |pointers| == |entries|
    decreases |pointers|
  {
    if pointers == [] then []
    else (if pointers[0] == q then [entries[0]] else []) + EntriesFor(pointers[1..], entries[1..], q)
  }

  /**
    Cancelling a pointer's pending work leaves nothing pending for it and every
    other pointer's entries exactly as they were, in order.
  */
  lemma {:induction false} CancelExact(pointers: seq<Pointer>, entries: seq<ScheduledTask>, p: Pointer, q: Pointer)
    requires |pointers| == |entries|
    ensures p !in Cancel(pointers, entries, p).0
    ensures var r := Cancel(pointers, entries, p);
      EntriesFor(r.0, r.1, q) == if q == p then [] else EntriesFor(pointers, entries, q)
    ensures p !in pointers ==> Cancel(pointers, entries, p) == (pointers, entries)
    decreases |pointers|
  {
    if pointers != [] {
      CancelExact(pointers[1..], entries[1..], p, q);
      var rest := Cancel(pointers[1..], entries[1..], p);
      if pointers[0] != p {
        var r := ([pointers[0]] + rest.0, [entries[0]] + rest.1);
        assert r.0[1..] == rest.0 && r.1[1..] == rest.1;
        assert pointers == [pointers[0]] + pointers[1..];
        assert entries == [entries[0]] + entries[1..];
      }
    }
  }

  /** One pending entry in the checker's pass: a due task runs with a null pointer. */
  function DueStep(values: map<string, real>, e: ScheduledTask, now: real): map<string, real>
  {
    if now >= e.executionTime then ExecuteTask(values, e.task, None) else values
  }

  /** The checker's pass over the pending entries, from the last index down to the first. */
  function RunDue(values: map<string, real>, entries: seq<ScheduledTask>, now: real): map<string, real>
    decreases |entries|
  {
    if entries == [] then values else DueStep(RunDue(values, entries[1..], now), entries[0], now)
  }

  /** The pending lists after the checker's pass: the entries not yet due, in order. */
  function KeepPending(pointers: seq<Pointer>, entries: seq<ScheduledTask>, now: real): (r: (seq<Pointer>, seq<ScheduledTask>))
    requires |pointers| == |entries|
    ensures |r.0| == |r.1|
    decreases |pointers|
  {
    if pointers == [] then ([], [])
    else
      var rest := KeepPending(pointers[1..], entries[1..], now);
      if now >= entries[0].executionTime then rest else ([pointers[0]] + rest.0, [entries[0]] + rest.1)
  }

  /** After the checker's pass exactly the entries not yet due remain, each as often as before. */
  lemma {:induction false} KeepPendingExact(pointers: seq<Pointer>, entries: seq<ScheduledTask>, now: real, e: ScheduledTask)
    requires |pointers| == |entries|
    ensures multiset(KeepPending(pointers, entries, now).1)[e] == if now < e.executionTime then multiset(entries)[e] else 0
    decreases |pointers|
  {
    if pointers != [] {
      KeepPendingExact(pointers[1..], entries[1..], now, e);
      assert entries == [entries[0]] + entries[1..];
    }
  }

  /** Every due task runs with a null pointer, so a delayed SetFromPointer task never writes. */
  lemma {:induction false} DelayedSetFromPointerWritesNothing(values: map<string, real>, entries: seq<ScheduledTask>, now: real)
    requires forall i :: 0 <= i < |entries| ==> entries[i].task.updateMethod == SetFromPointer
    ensures RunDue(values, entries, now) == values
    decreases |entries|
  {
    if entries != [] {
      DelayedSetFromPointerWritesNothing(values, entries[1..], now);
    }
  }

  /** One pass of `TaskCheckerCoroutine`'s loop body; when nothing is left it clears its handle and ends. */
  function CheckerIteration(s: TriggerState, now: real): (r: TriggerState)
    requires Parallel(s)
    ensures Parallel(r)
  {
    var kept := KeepPending(s.taskPointers, s.taskEntries, now);
    var s1 := s.(values := RunDue(s.values, s.taskEntries, now), taskPointers := kept.0, taskEntries := kept.1);
    if |kept.1| == 0 then s1.(checker := Idle) else s1
  }

  /**
    `StartDelayedTaskCheckerIfNeeded`: with a handle stored nothing happens;
    otherwise the coroutine's first pass runs at once and its handle is stored.
  */
  function StartChecker(s: TriggerState, now: real): (r: TriggerState)
    requires Parallel(s)
    ensures Parallel(r)
  {
    if s.checker.handle then s
    else
      var s1 := CheckerIteration(s.(checker := Coroutine(false, true)), now);
      s1.(checker := Coroutine(true, s1.checker.alive))
  }

  /** `StopTaskChecker`. */
  function StopChecker(s: TriggerState): (r: TriggerState)
    ensures !r.checker.handle
    ensures r.(checker := s.checker) == s
  {
    if !s.checker.handle then s else s.(checker := Idle)
  }

  /** An entry not yet due at the end of the lists survives the checker's pass, last, and adds no write to it. */
  lemma {:induction false} NotDueAppended(values: map<string, real>, pointers: seq<Pointer>, entries: seq<ScheduledTask>, p: Pointer, e: ScheduledTask, now: real)
    requires |pointers| == |entries| && now < e.executionTime
    ensures var kept := KeepPending(pointers, entries, now);
      KeepPending(pointers + [p], entries + [e], now) == (kept.0 + [p], kept.1 + [e])
    ensures RunDue(values, entries + [e], now) == RunDue(values, entries, now)
    decreases |pointers|
  {
    if pointers == [] {
      assert pointers + [p] == [p] && entries + [e] == [e];
      assert [p][1..] == [] && [e][1..] == [];
      assert KeepPending([p], [e], now) == ([p] + [], [e] + []);
      assert [p] + [] == [p] && [e] + [] == [e];
    } else {
      NotDueAppended(values, pointers[1..], entries[1..], p, e, now);
      assert (pointers + [p])[1..] == pointers[1..] + [p];
      assert (entries + [e])[1..] == entries[1..] + [e];
      var rest := KeepPending(pointers[1..], entries[1..], now);
      assert [pointers[0]] + (rest.0 + [p]) == ([pointers[0]] + rest.0) + [p];
      assert [entries[0]] + (rest.1 + [e]) == ([entries[0]] + rest.1) + [e];
    }
  }

  /**
    A task queued with a positive delay waits for its time: a checker pass at any
    moment before it is due, the queuing frame included, keeps it pending at the end
    of the lists, keeps the checker running, and writes exactly what the pass would
    have written without it.
  */
  lemma QueuedWaitsForItsTime(s: TriggerState, task: TriggerTask, p: Pointer, isEnter: bool, m: Moment, later: real)
    requires Parallel(s) && CheckerSound(s)
    requires EffectiveDelay(task, isEnter) > 0.0 && later < m.now + EffectiveDelay(task, isEnter)
    ensures var r := TryRunTriggerTask(s, task, p, isEnter, m);
      var c := CheckerIteration(r, later);
      var kept := KeepPending(s.taskPointers, s.taskEntries, later);
      && c.taskEntries == kept.1 + [ScheduledTask(task, m.now + EffectiveDelay(task, isEnter))]
      && c.taskPointers == kept.0 + [p]
      && c.values == RunDue(s.values, s.taskEntries, later)
      && c.checker == r.checker && c.checker.alive
  {
    TryRunTriggerTaskEffect(s, task, p, isEnter, m);
    NotDueAppended(s.values, s.taskPointers, s.taskEntries, p, ScheduledTask(task, m.now + EffectiveDelay(task, isEnter)), later);
  }

  /**
    The checker resuming one frame later, as written: it re-tests the loop condition
    and, finding the list empty, ends without clearing its handle.
  */
  function CheckerResumeAsWritten(s: TriggerState, now: real): (r: TriggerState)
    requires Parallel(s)
    ensures Parallel(r)
  {
    if !s.checker.alive then s
    else if |s.taskEntries| == 0 then s.(checker := s.checker.(alive := false))
    else CheckerIteration(s, now)
  }

  /** The checker resuming one frame later, as intended: however it ends, its handle is cleared. */
  function CheckerResume(s: TriggerState, now: real): (r: TriggerState)
    requires Parallel(s)
    ensures Parallel(r)
  {
    if !s.checker.alive then s
    else if |s.taskEntries| == 0 then s.(checker := Idle)
    else CheckerIteration(s, now)
  }

  /** `TryRunTriggerTask`: a positive delay queues the task and starts the checker, otherwise it runs now. */
  function TryRunTriggerTask(s: TriggerState, task: TriggerTask, p: Pointer, isEnter: bool, m: Moment): (r: TriggerState)
    requires Parallel(s)
    ensures Parallel(r)
  {
    var delay := EffectiveDelay(task, isEnter);
    if delay > 0.0 then
      StartChecker(s.(taskEntries := s.taskEntries + [ScheduledTask(task, m.now + delay)], taskPointers := s.taskPointers + [p]), m.now)
    else
      s.(values := ExecuteTask(s.values, task, Some(m.read(p).value)))
  }

  /** The tasks of one event, tried in list order. */
  function RunTasks(s: TriggerState, p: Pointer, tasks: seq<TriggerTask>, isEnter: bool, m: Moment): (r: TriggerState)
    requires Parallel(s)
    ensures Parallel(r)
    decreases |tasks|
  {
    if tasks == [] then s
    else TryRunTriggerTask(RunTasks(s, p, tasks[..|tasks| - 1], isEnter, m), tasks[|tasks| - 1], p, isEnter, m)
  }

  /** `RunAdvancedTriggerTasks`: cancels the pointer's pending work, then tries each task. */
  function RunAdvancedTriggerTasks(s: TriggerState, p: Pointer, tasks: seq<TriggerTask>, isEnter: bool, m: Moment): (r: TriggerState)
    requires Parallel(s)
    ensures Parallel(r)
  {
    var c := Cancel(s.taskPointers, s.taskEntries, p);
    RunTasks(s.(taskPointers := c.0, taskEntries := c.1), p, tasks, isEnter, m)
  }

  /**
    Delays: a task with no positive delay runs at once and queues nothing; one with a
    positive delay changes no parameter yet and waits at the end of the lists, due
    at `now` plus its delay (the hold time counting on enter only).
  */
  lemma TryRunTriggerTaskEffect(s: TriggerState, task: TriggerTask, p: Pointer, isEnter: bool, m: Moment)
    requires Parallel(s) && CheckerSound(s)
    ensures var r := TryRunTriggerTask(s, task, p, isEnter, m);
      if EffectiveDelay(task, isEnter) > 0.0 then
        && r.values == s.values
        && r.taskEntries == s.taskEntries + [ScheduledTask(task, m.now + (if isEnter then task.delay + task.holdTime else task.delay))]
        && r.taskPointers == s.taskPointers + [p]
        && r.checker.handle && r.checker.alive
      else
        r == s.(values := ExecuteTask(s.values, task, Some(m.read(p).value)))
  {
    var delay := EffectiveDelay(task, isEnter);
    if delay > 0.0 && !s.checker.handle {
      var e := ScheduledTask(task, m.now + delay);
      assert s.taskEntries == [] && s.taskPointers == [];
      assert [e][1..] == [] && [p][1..] == [];
      assert !(m.now >= e.executionTime);
      assert KeepPending([], [], m.now) == ([], []);
      assert [p] + [] == [p] && [e] + [] == [e];
      assert KeepPending([p], [e], m.now) == ([p], [e]);
      assert RunDue(s.values, [e], m.now) == s.values;
      assert s.taskEntries + [e] == [e] && s.taskPointers + [p] == [p];
    }
  }

  // ---------------------------------------------------------------- stay tasks

  /** A non-negative quantity scaled by a fraction stays between zero and itself. */
  lemma ScaleByFraction(d: real, c: real)
    requires d >= 0.0 && 0.0 <= c <= 1.0
    ensures 0.0 <= d * c <= d
  {
    assert d * (1.0 - c) >= 0.0;
  }

  /** `Mathf.Lerp`: the interpolation factor is clamped to [0, 1]. */
  function Lerp(a: real, b: real, t: real): (r: real)
    ensures a <= b ==> a <= r <= b
    ensures t <= 0.0 ==> r == a
    ensures t >= 1.0 ==> r == b
  {
    if t <= 0.0 then a
    else if t >= 1.0 then b
    else if a <= b then ScaleByFraction(b - a, t); a + (b - a) * t
    else a + (b - a) * t
  }

  /** The normalized coordinate along the sample direction; a negative direction counts from the far side. */
  function SampleAlong(dir: SampleDirection, r: PointerReading): (v: real)
    ensures 0.0 <= v <= 1.0
  {
    match dir
    case XPositive => Clamp01(r.x)
    case XNegative => 1.0 - Clamp01(r.x)
    case YPositive => Clamp01(r.y)
    case YNegative => 1.0 - Clamp01(r.y)
    case ZPositive => Clamp01(r.z)
    case ZNegative => 1.0 - Clamp01(r.z)
  }

  /** The squared length of the centred position vector, each normalized coordinate mapped from [0, 1] to [-1, 1]. */
  function CentredSquare(r: PointerReading): real
  {
    var cx, cy, cz := (Clamp01(r.x) - 0.5) * 2.0, (Clamp01(r.y) - 0.5) * 2.0, (Clamp01(r.z) - 0.5) * 2.0;
    cx * cx + cy * cy + cz * cz
  }

  /** The value a Position or Distance stay task interpolates by. */
  function StaySample(cfg: TriggerConfig, task: TriggerStayTask, r: Reading): (v: real)
    ensures 0.0 <= v <= 1.0
  {
    if task.updateMethod == SetFromPosition then SampleAlong(cfg.sampleDirection, r) else Clamp01(r.magnitude)
  }

  /** How far one run of a stay Add or Subtract moves its parameter: the minimum value per second of fixed step. */
  function StayStep(task: TriggerStayTask, fixedDeltaTime: real): real
  {
    task.minValue * fixedDeltaTime
  }

  /** `ExecuteStayTask`. */
  function ExecuteStayTask(values: map<string, real>, cfg: TriggerConfig, task: TriggerStayTask, r: Reading, fixedDeltaTime: real): (w: map<string, real>)
    ensures w.Keys == values.Keys
    ensures forall n :: n in values && n != task.settingName ==> w[n] == values[n]
  {
    var name := task.settingName;
    match task.updateMethod
    case SetFromPosition | SetFromDistance => Write(values, name, Lerp(task.minValue, task.maxValue, StaySample(cfg, task, r)))
    case StayAdd => Write(values, name, Read(values, name) + StayStep(task, fixedDeltaTime))
    case StaySubtract => Write(values, name, Read(values, name) - StayStep(task, fixedDeltaTime))
    case StaySetFromPointer => Write(values, name, r.value)
  }

  /** A positive length has a positive square, and a length below 1 a square below 1. */
  lemma LengthFromSquare(m: real)
    requires m >= 0.0
    ensures 0.0 < m ==> 0.0 < Square(m)
    ensures m < 1.0 ==> Square(m) < 1.0
  {
    if 0.0 < m {
      calc {
        Square(m);
        m * m;
      > { assert m * m > m * 0.0; }
        0.0;
      }
    }
    if m < 1.0 {
      calc {
        Square(m);
        m * m;
      <= { assert m * m <= m * 1.0; }
        m;
      <
        1.0;
      }
    }
  }

  /**
    Position and distance sampling write a value between the task's bounds when they
    are ordered. In distance mode a pointer at the centre of the volume writes the
    minimum, and one at a corner or beyond the unit length writes the maximum.
  */
  lemma StaySamplingBounds(values: map<string, real>, cfg: TriggerConfig, task: TriggerStayTask, r: Reading, dt: real)
    requires task.updateMethod == SetFromPosition || task.updateMethod == SetFromDistance
    requires task.settingName in values
    ensures var w := ExecuteStayTask(values, cfg, task, r, dt)[task.settingName];
      && (task.minValue <= task.maxValue ==> task.minValue <= w <= task.maxValue)
      && (task.updateMethod == SetFromDistance && r.x == 0.5 && r.y == 0.5 && r.z == 0.5 ==> w == task.minValue)
      && (task.updateMethod == SetFromDistance && (r.x <= 0.0 || r.x >= 1.0) && (r.y <= 0.0 || r.y >= 1.0) && (r.z <= 0.0 || r.z >= 1.0) ==> w == task.maxValue)
      && (task.updateMethod == SetFromDistance && r.magnitude >= 1.0 ==> w == task.maxValue)
  {
    if task.updateMethod == SetFromDistance {
      assert StaySample(cfg, task, r) == Clamp01(r.magnitude);
      CentredSquareAtCentreAndCorner(r);
      LengthFromSquare(r.magnitude);
    }
  }

  /** The centred position vector is zero at the centre of the volume and has squared length 3 at a corner. */
  lemma CentredSquareAtCentreAndCorner(r: PointerReading)
    ensures r.x == 0.5 && r.y == 0.5 && r.z == 0.5 ==> CentredSquare(r) == 0.0
    ensures (r.x <= 0.0 || r.x >= 1.0) && (r.y <= 0.0 || r.y >= 1.0) && (r.z <= 0.0 || r.z >= 1.0) ==> CentredSquare(r) == 3.0
  {
  }

  /** A negative sample direction mirrors the positive one. */
  lemma NegativeDirectionMirrors(r: PointerReading)
    ensures SampleAlong(XNegative, r) == 1.0 - SampleAlong(XPositive, r)
    ensures SampleAlong(YNegative, r) == 1.0 - SampleAlong(YPositive, r)
    ensures SampleAlong(ZNegative, r) == 1.0 - SampleAlong(ZPositive, r)
  {
  }

  /** Stay Add and Subtract move a known parameter by the minimum value per second of fixed step, and undo each other. */
  lemma StayAddSubtract(values: map<string, real>, cfg: TriggerConfig, name: string, minValue: real, maxValue: real, r: Reading, dt: real)
    requires name in values
    ensures ExecuteStayTask(values, cfg, TriggerStayTask(name, StayAdd, minValue, maxValue), r, dt)[name] == values[name] + minValue * dt
    ensures ExecuteStayTask(values, cfg, TriggerStayTask(name, StaySubtract, minValue, maxValue), r, dt)[name] == values[name] - minValue * dt
    ensures var up := ExecuteStayTask(values, cfg, TriggerStayTask(name, StayAdd, minValue, maxValue), r, dt);
      ExecuteStayTask(up, cfg, TriggerStayTask(name, StaySubtract, minValue, maxValue), r, dt) == values
  {
  }

  /** The registered stay pairs, each run once, in list order, with its pointer's current reading. */
  function RunStays(values: map<string, real>, cfg: TriggerConfig, pointers: seq<Pointer>, entries: seq<StayRef>, m: Moment): map<string, real>
    requires |pointers| == |entries|
    decreases |pointers|
  {
    if pointers == [] then values
    else
      var n := |pointers| - 1;
      ExecuteStayTask(RunStays(values, cfg, pointers[..n], entries[..n], m), cfg, entries[n].task, m.read(pointers[n]), m.fixedDeltaTime)
  }

  /** One pass of `StayTaskRunnerCoroutine`'s loop body. */
  function RunnerIteration(s: TriggerState, cfg: TriggerConfig, m: Moment): (r: TriggerState)
    requires Parallel(s)
    ensures Parallel(r)
  {
    var s1 := s.(values := RunStays(s.values, cfg, s.stayPointers, s.stayEntries, m));
    if |s1.stayEntries| == 0 then s1.(runner := Idle) else s1
  }

  /** `StartStayTaskRunnerIfNeeded`: the first pass runs at once, then the handle is stored. */
  function StartRunner(s: TriggerState, cfg: TriggerConfig, m: Moment): (r: TriggerState)
    requires Parallel(s)
    ensures Parallel(r)
  {
    if s.runner.handle then s
    else
      var s1 := RunnerIteration(s.(runner := Coroutine(false, true)), cfg, m);
      s1.(runner := Coroutine(true, s1.runner.alive))
  }

  /** `StopStayTaskRunner`. */
  function StopRunner(s: TriggerState): (r: TriggerState)
    ensures !r.runner.handle
    ensures r.(runner := s.runner) == s
  {
    if !s.runner.handle then s else s.(runner := Idle)
  }

  /** The runner resuming after a fixed update. */
  function RunnerResume(s: TriggerState, cfg: TriggerConfig, m: Moment): (r: TriggerState)
    requires Parallel(s)
    ensures Parallel(r)
  {
    if !s.runner.alive then s
    else if |s.stayEntries| == 0 then s.(runner := s.runner.(alive := false))
    else RunnerIteration(s, cfg, m)
  }

  /** The stay pairs without the first pair of pointer `p` and stay task `t`, if there is one. */
  function RemoveFirstStay(pointers: seq<Pointer>, entries: seq<StayRef>, p: Pointer, t: StayRef): (r: (seq<Pointer>, seq<StayRef>))
    requires |pointers| == |entries|
    ensures |r.0| == |r.1|
    decreases |pointers|
  {
    if pointers == [] then ([], [])
    else if pointers[0] == p && entries[0] == t then (pointers[1..], entries[1..])
    else
      var rest := RemoveFirstStay(pointers[1..], entries[1..], p, t);
      ([pointers[0]] + rest.0, [entries[0]] + rest.1)
  }

  /** The index of the first registration of pointer `p` with stay task `t`, or the list length when there is none. */
  function FirstStay(pointers: seq<Pointer>, entries: seq<StayRef>, p: Pointer, t: StayRef): (i: nat)
    requires |pointers| == |entries|
    ensures i <= |pointers|
    ensures i < |pointers| ==> pointers[i] == p && entries[i] == t
    ensures forall j :: 0 <= j < i ==> !(pointers[j] == p && entries[j] == t)
    decreases |pointers|
  {
    if pointers == [] then 0
    else if pointers[0] == p && entries[0] == t then 0
    else 1 + FirstStay(pointers[1..], entries[1..], p, t)
  }

  /** Cutting element `j` out of a list's tail and putting its head back cuts element `j + 1` out of the list. */
  lemma CutBehindHead<T>(xs: seq<T>, j: nat)
    requires j + 1 < |xs|
    ensures [xs[0]] + (xs[1..][..j] + xs[1..][j + 1..]) == xs[..j + 1] + xs[j + 2..]
  {
    assert xs[..j + 1] == [xs[0]] + xs[1..][..j];
    assert xs[j + 2..] == xs[1..][j + 1..];
  }

  /** Cutting element `i` out of a prefix of `xs` that runs through `i`, followed by `k`. */
  lemma CutFromPrefix<T>(xs: seq<T>, i: nat, k: seq<T>)
    requires i < |xs|
    ensures (xs[..i + 1] + k)[..i] + (xs[..i + 1] + k)[i + 1..] == xs[..i] + k
  {
    assert (xs[..i + 1] + k)[..i] == xs[..i];
    assert (xs[..i + 1] + k)[i + 1..] == k;
  }

  /** A prefix through `i` followed by `k` is the prefix before `i`, then element `i`, then `k`. */
  lemma PrefixThrough<T>(xs: seq<T>, i: nat, k: seq<T>)
    requires i < |xs|
    ensures xs[..i + 1] + k == xs[..i] + ([xs[i]] + k)
  {
    assert xs[..i + 1] == xs[..i] + [xs[i]];
  }

  /** Without a registration of the pair, deregistration changes nothing. */
  lemma {:induction false} RemoveFirstStayAbsent(pointers: seq<Pointer>, entries: seq<StayRef>, p: Pointer, t: StayRef)
    requires |pointers| == |entries|
    requires FirstStay(pointers, entries, p, t) == |pointers|
    ensures RemoveFirstStay(pointers, entries, p, t) == (pointers, entries)
    decreases |pointers|
  {
    if pointers != [] {
      RemoveFirstStayAbsent(pointers[1..], entries[1..], p, t);
      assert [pointers[0]] + pointers[1..] == pointers;
      assert [entries[0]] + entries[1..] == entries;
    }
  }

  /** With a registration of the pair, deregistration cuts out the first one. */
  lemma {:induction false} RemoveFirstStayFound(pointers: seq<Pointer>, entries: seq<StayRef>, p: Pointer, t: StayRef)
    requires |pointers| == |entries|
    requires FirstStay(pointers, entries, p, t) < |pointers|
    ensures var i := FirstStay(pointers, entries, p, t);
      RemoveFirstStay(pointers, entries, p, t) == (pointers[..i] + pointers[i + 1..], entries[..i] + entries[i + 1..])
    decreases |pointers|
  {
    if pointers[0] == p && entries[0] == t {
      assert pointers[..0] + pointers[1..] == pointers[1..];
      assert entries[..0] + entries[1..] == entries[1..];
    } else {
      var j := FirstStay(pointers[1..], entries[1..], p, t);
      RemoveFirstStayFound(pointers[1..], entries[1..], p, t);
      CutBehindHead(pointers, j);
      CutBehindHead(entries, j);
    }
  }

  /** Deregistration removes the first registration of the pair when there is one, and nothing otherwise. */
  lemma RemoveFirstStayExact(pointers: seq<Pointer>, entries: seq<StayRef>, p: Pointer, t: StayRef)
    requires |pointers| == |entries|
    ensures var i := FirstStay(pointers, entries, p, t);
      i < |pointers| ==> RemoveFirstStay(pointers, entries, p, t) == (pointers[..i] + pointers[i + 1..], entries[..i] + entries[i + 1..])
    ensures FirstStay(pointers, entries, p, t) == |pointers| ==> RemoveFirstStay(pointers, entries, p, t) == (pointers, entries)
  {
    if FirstStay(pointers, entries, p, t) < |pointers| {
      RemoveFirstStayFound(pointers, entries, p, t);
    } else {
      RemoveFirstStayAbsent(pointers, entries, p, t);
    }
  }


  /**
    `TryScheduleStayTask`: on enter the pair is appended and the runner started; on
    exit the first matching pair is removed and the runner stopped once none is left.
  */
  function TryScheduleStayTask(s: TriggerState, cfg: TriggerConfig, t: StayRef, p: Pointer, isEnter: bool, m: Moment): (r: TriggerState)
    requires Parallel(s)
    ensures Parallel(r)
  {
    if isEnter then
      StartRunner(s.(stayEntries := s.stayEntries + [t], stayPointers := s.stayPointers + [p]), cfg, m)
    else
      var removed := RemoveFirstStay(s.stayPointers, s.stayEntries, p, t);
      var s1 := s.(stayPointers := removed.0, stayEntries := removed.1);
      if |s1.stayPointers| == 0 then StopRunner(s1) else s1
  }

  /** The first `k` stay tasks of the trigger, scheduled or descheduled in list order. */
  function ScheduleStays(s: TriggerState, cfg: TriggerConfig, p: Pointer, isEnter: bool, m: Moment, k: nat): (r: TriggerState)
    requires Parallel(s) && k <= |cfg.stayTasks|
    ensures Parallel(r)
  {
    if k == 0 then s
    else TryScheduleStayTask(ScheduleStays(s, cfg, p, isEnter, m, k - 1), cfg, StayRef(k - 1, cfg.stayTasks[k - 1]), p, isEnter, m)
  }

  // ---------------------------------------------------------------- events

  /** `OnTriggerEnter`; `other` is the entering collider's pointer wrapper, if it has one. */
  function OnEnter(s: TriggerState, cfg: TriggerConfig, runtimeHash: int, other: Option<Pointer>, m: Moment): (r: TriggerState)
    requires Parallel(s)
    ensures Parallel(r)
  {
    if other.None? || !CanInteract(cfg, runtimeHash, other.value) then s
    else if !cfg.useAdvancedTrigger then s.(values := Write(s.values, cfg.settingName, cfg.settingValue))
    else if !AdvancedAllowed(AllowedHashes(cfg), OnlyPointerReferences(cfg), other.value) then s
    else
      var afterTasks := RunAdvancedTriggerTasks(s, other.value, cfg.enterTasks, true, m);
      ScheduleStays(afterTasks, cfg, other.value, true, m, |cfg.stayTasks|)
  }

  /** `OnTriggerExit`: unlike enter it does not consult the allow-list. */
  function OnExit(s: TriggerState, cfg: TriggerConfig, runtimeHash: int, other: Option<Pointer>, m: Moment): (r: TriggerState)
    requires Parallel(s)
    ensures Parallel(r)
  {
    if !cfg.useAdvancedTrigger then s
    else if other.None? || !CanInteract(cfg, runtimeHash, other.value) then s
    else
      var afterTasks := RunAdvancedTriggerTasks(s, other.value, cfg.exitTasks, false, m);
      ScheduleStays(afterTasks, cfg, other.value, false, m, |cfg.stayTasks|)
  }

  /** `OnDestroy`. */
  function OnDestroy(s: TriggerState): (r: TriggerState)
    ensures !r.checker.handle && !r.runner.handle
    ensures r.(checker := s.checker, runner := s.runner) == s
  {
    StopRunner(StopChecker(s))
  }

  /**
    Events without an admissible pointer change nothing; a simple trigger's enter
    makes exactly one write and its exit nothing.
  */
  lemma EventAdmission(s: TriggerState, cfg: TriggerConfig, runtimeHash: int, other: Option<Pointer>, m: Moment)
    requires Parallel(s)
    ensures other.None? ==> OnEnter(s, cfg, runtimeHash, other, m) == s && OnExit(s, cfg, runtimeHash, other, m) == s
    ensures other.Some? && !CanInteract(cfg, runtimeHash, other.value) ==>
      OnEnter(s, cfg, runtimeHash, other, m) == s && OnExit(s, cfg, runtimeHash, other, m) == s
    ensures !cfg.useAdvancedTrigger ==> OnExit(s, cfg, runtimeHash, other, m) == s
    ensures !cfg.useAdvancedTrigger && other.Some? && CanInteract(cfg, runtimeHash, other.value) ==>
      OnEnter(s, cfg, runtimeHash, other, m) == s.(values := Write(s.values, cfg.settingName, cfg.settingValue))
    ensures (cfg.useAdvancedTrigger && other.Some? && CanInteract(cfg, runtimeHash, other.value)
      && !AdvancedAllowed(AllowedHashes(cfg), OnlyPointerReferences(cfg), other.value)) ==>
      OnEnter(s, cfg, runtimeHash, other, m) == s
  {
  }

  /** `CheckPointerCanInteract` in both directions. */
  lemma CanInteractCases(cfg: TriggerConfig, runtimeHash: int, p: Pointer)
    ensures p.runtimeHash == runtimeHash ==> (CanInteract(cfg, runtimeHash, p) <==> cfg.isLocalInteractable)
    ensures p.runtimeHash != runtimeHash ==> (CanInteract(cfg, runtimeHash, p) <==> cfg.isNetworkInteractable)
  {
  }

  // ---------------------------------------------------------------- coroutine invariants

  /**
    The checker slot as intended: a stored handle always belongs to a running
    checker, and pending work always has one.
  */
  predicate CheckerSound(s: TriggerState)
  {
    s.checker.handle == s.checker.alive && (|s.taskEntries| > 0 ==> s.checker.alive)
  }

  /** The runner slot: a stored handle belongs to a running runner, and it runs exactly while pairs are registered. */
  predicate RunnerSound(s: TriggerState)
  {
    s.runner.handle == s.runner.alive && (s.runner.alive <==> |s.stayEntries| > 0)
  }

  lemma CancelKeepsCheckerSound(s: TriggerState, p: Pointer)
    requires Parallel(s) && CheckerSound(s)
    ensures var c := Cancel(s.taskPointers, s.taskEntries, p);
      CheckerSound(s.(taskPointers := c.0, taskEntries := c.1))
  {
  }

  lemma {:induction false} RunTasksKeepsCheckerSound(s: TriggerState, p: Pointer, tasks: seq<TriggerTask>, isEnter: bool, m: Moment)
    requires Parallel(s) && CheckerSound(s)
    ensures CheckerSound(RunTasks(s, p, tasks, isEnter, m))
    ensures RunTasks(s, p, tasks, isEnter, m).stayPointers == s.stayPointers
    ensures RunTasks(s, p, tasks, isEnter, m).stayEntries == s.stayEntries
    ensures RunTasks(s, p, tasks, isEnter, m).runner == s.runner
    decreases |tasks|
  {
    if tasks != [] {
      var before := RunTasks(s, p, tasks[..|tasks| - 1], isEnter, m);
      RunTasksKeepsCheckerSound(s, p, tasks[..|tasks| - 1], isEnter, m);
      TryRunTriggerTaskEffect(before, tasks[|tasks| - 1], p, isEnter, m);
    }
  }

  lemma {:induction false} ScheduleStaysKeepsRunnerSound(s: TriggerState, cfg: TriggerConfig, p: Pointer, isEnter: bool, m: Moment, k: nat)
    requires Parallel(s) && RunnerSound(s) && k <= |cfg.stayTasks|
    ensures RunnerSound(ScheduleStays(s, cfg, p, isEnter, m, k))
    ensures ScheduleStays(s, cfg, p, isEnter, m, k).taskEntries == s.taskEntries
    ensures ScheduleStays(s, cfg, p, isEnter, m, k).checker == s.checker
  {
    if k > 0 {
      ScheduleStaysKeepsRunnerSound(s, cfg, p, isEnter, m, k - 1);
      var before := ScheduleStays(s, cfg, p, isEnter, m, k - 1);
      if !isEnter {
        var t := StayRef(k - 1, cfg.stayTasks[k - 1]);
        var removed := RemoveFirstStay(before.stayPointers, before.stayEntries, p, t);
        assert |removed.1| > 0 ==> |before.stayEntries| > 0;
      }
    }
  }

  /** An enter event keeps both coroutine slots sound. */
  lemma EnterKeepsCoroutinesSound(s: TriggerState, cfg: TriggerConfig, runtimeHash: int, other: Option<Pointer>, m: Moment)
    requires Parallel(s) && CheckerSound(s) && RunnerSound(s)
    ensures CheckerSound(OnEnter(s, cfg, runtimeHash, other, m)) && RunnerSound(OnEnter(s, cfg, runtimeHash, other, m))
  {
    if other.Some? && cfg.useAdvancedTrigger {
      var p := other.value;
      var c := Cancel(s.taskPointers, s.taskEntries, p);
      CancelKeepsCheckerSound(s, p);
      RunTasksKeepsCheckerSound(s.(taskPointers := c.0, taskEntries := c.1), p, cfg.enterTasks, true, m);
      ScheduleStaysKeepsRunnerSound(RunAdvancedTriggerTasks(s, p, cfg.enterTasks, true, m), cfg, p, true, m, |cfg.stayTasks|);
    }
  }

  /** An exit event keeps both coroutine slots sound. */
  lemma ExitKeepsCoroutinesSound(s: TriggerState, cfg: TriggerConfig, runtimeHash: int, other: Option<Pointer>, m: Moment)
    requires Parallel(s) && CheckerSound(s) && RunnerSound(s)
    ensures CheckerSound(OnExit(s, cfg, runtimeHash, other, m)) && RunnerSound(OnExit(s, cfg, runtimeHash, other, m))
  {
    if other.Some? && cfg.useAdvancedTrigger {
      var p := other.value;
      var c := Cancel(s.taskPointers, s.taskEntries, p);
      CancelKeepsCheckerSound(s, p);
      RunTasksKeepsCheckerSound(s.(taskPointers := c.0, taskEntries := c.1), p, cfg.exitTasks, false, m);
      ScheduleStaysKeepsRunnerSound(RunAdvancedTriggerTasks(s, p, cfg.exitTasks, false, m), cfg, p, false, m, |cfg.stayTasks|);
    }
  }

  /** Every trigger event and every resumption keeps both coroutine slots sound. */
  lemma EventsKeepCoroutinesSound(s: TriggerState, cfg: TriggerConfig, runtimeHash: int, other: Option<Pointer>, m: Moment)
    requires Parallel(s) && CheckerSound(s) && RunnerSound(s)
    ensures CheckerSound(OnEnter(s, cfg, runtimeHash, other, m)) && RunnerSound(OnEnter(s, cfg, runtimeHash, other, m))
    ensures CheckerSound(OnExit(s, cfg, runtimeHash, other, m)) && RunnerSound(OnExit(s, cfg, runtimeHash, other, m))
    ensures CheckerSound(CheckerResume(s, m.now)) && RunnerSound(CheckerResume(s, m.now))
    ensures CheckerSound(RunnerResume(s, cfg, m)) && RunnerSound(RunnerResume(s, cfg, m))
  {
    EnterKeepsCoroutinesSound(s, cfg, runtimeHash, other, m);
    ExitKeepsCoroutinesSound(s, cfg, runtimeHash, other, m);
  }

  /**
    Starting is idempotent: once started a handle is held and a second start changes
    nothing. Stopping drops the handle, and a second stop changes nothing.
  */
  lemma StartStopIdempotent(s: TriggerState, cfg: TriggerConfig, now: real, m: Moment)
    requires Parallel(s)
    ensures StartChecker(s, now).checker.handle && StartChecker(StartChecker(s, now), m.now) == StartChecker(s, now)
    ensures StartRunner(s, cfg, m).runner.handle && StartRunner(StartRunner(s, cfg, m), cfg, m) == StartRunner(s, cfg, m)
    ensures s.checker.handle ==> StartChecker(s, now) == s
    ensures s.runner.handle ==> StartRunner(s, cfg, m) == s
    ensures StopChecker(StopChecker(s)) == StopChecker(s) && StopRunner(StopRunner(s)) == StopRunner(s)
    ensures !s.checker.handle ==> StopChecker(s) == s
    ensures !s.runner.handle ==> StopRunner(s) == s
  {
  }

  /** Destroying a trigger whose slots are sound leaves no coroutine behind and changes nothing else. */
  lemma DestroyStopsBoth(s: TriggerState)
    requires CheckerSound(s) && RunnerSound(s)
    ensures OnDestroy(s) == s.(checker := Idle, runner := Idle)
    ensures CheckerSound(OnDestroy(s)) == (|s.taskEntries| == 0)
  {
  }

  /** An event with one task and no pending work just tries that task. */
  lemma RunTasksSingle(s: TriggerState, p: Pointer, task: TriggerTask, isEnter: bool, m: Moment)
    requires Parallel(s) && s.taskPointers == [] && s.taskEntries == []
    ensures RunAdvancedTriggerTasks(s, p, [task], isEnter, m) == TryRunTriggerTask(s, task, p, isEnter, m)
  {
    assert Cancel([], [], p) == ([], []);
    assert [task][..0] == [];
    assert RunTasks(s, p, [], isEnter, m) == s;
  }

  /**
    The checker as written loses its handle's meaning: an enter queues a task, an
    exit with no exit tasks cancels it, the checker's next frame ends on the empty
    list without clearing the handle, and a later enter queues a task that no frame
    ever runs, while the intended checker runs it when it falls due.
  */
  lemma CheckerAsWrittenStrandsTasks(values: map<string, real>)
    ensures var task := TriggerTask("P", Override, 1.0, 1.0, 0.0);
      var p := Pointer(1, 2, 3, 4);
      var s0 := TriggerState(values, [], [], Idle, [], [], Idle);
      var m0 := Moment(0.0, 0.02, _ => CentreReading);
      var s1 := RunAdvancedTriggerTasks(s0, p, [task], true, m0);
      var s2 := RunAdvancedTriggerTasks(s1, p, [], false, m0.(now := 0.5));
      var stuck := RunAdvancedTriggerTasks(CheckerResumeAsWritten(s2, 0.6), p, [task], true, m0.(now := 1.0));
      var fixed := RunAdvancedTriggerTasks(CheckerResume(s2, 0.6), p, [task], true, m0.(now := 1.0));
      && |stuck.taskEntries| == 1 && stuck.checker == Coroutine(true, false)
      && CheckerResumeAsWritten(stuck, 3.0) == stuck
      && |fixed.taskEntries| == 1 && fixed.checker == Coroutine(true, true)
      && CheckerResume(fixed, 3.0).taskEntries == []
      && CheckerResume(fixed, 3.0).values == Write(values, "P", 1.0)
  {
    var task := TriggerTask("P", Override, 1.0, 1.0, 0.0);
    var p := Pointer(1, 2, 3, 4);
    var s0 := TriggerState(values, [], [], Idle, [], [], Idle);
    var m0 := Moment(0.0, 0.02, _ => CentreReading);
    assert [task][..0] == [];
    // the first enter queues the task, due at 1.0, and starts the checker
    assert Cancel([], [], p) == ([], []);
    var s1 := RunAdvancedTriggerTasks(s0, p, [task], true, m0);
    RunTasksSingle(s0, p, task, true, m0);
    TryRunTriggerTaskEffect(s0, task, p, true, m0);
    assert s1.taskEntries == [ScheduledTask(task, 1.0)] && s1.taskPointers == [p] && s1.checker == Coroutine(true, true);
    // the exit cancels it and has no task of its own
    assert Cancel([p], [ScheduledTask(task, 1.0)], p) == ([], []);
    var s2 := RunAdvancedTriggerTasks(s1, p, [], false, m0.(now := 0.5));
    assert s2 == s1.(taskPointers := [], taskEntries := []);
    // the next frame: as written the handle stays, as intended it is cleared
    var ended := CheckerResumeAsWritten(s2, 0.6);
    assert ended.checker == Coroutine(true, false);
    var cleared := CheckerResume(s2, 0.6);
    assert cleared.checker == Idle;
    // the second enter queues the task again, due at 2.0
    var stuck := RunAdvancedTriggerTasks(ended, p, [task], true, m0.(now := 1.0));
    RunTasksSingle(ended, p, task, true, m0.(now := 1.0));
    assert stuck == ended.(taskEntries := [ScheduledTask(task, 2.0)], taskPointers := [p]);
    var fixed := RunAdvancedTriggerTasks(cleared, p, [task], true, m0.(now := 1.0));
    RunTasksSingle(cleared, p, task, true, m0.(now := 1.0));
    TryRunTriggerTaskEffect(cleared, task, p, true, m0.(now := 1.0));
    assert fixed.taskEntries == [ScheduledTask(task, 2.0)] && fixed.taskPointers == [p];
    // at 3.0 only the intended checker runs it
    assert KeepPending([p], [ScheduledTask(task, 2.0)], 3.0) == ([], []);
    assert RunDue(fixed.values, [ScheduledTask(task, 2.0)], 3.0) == ExecuteTask(fixed.values, task, None);
  }
}
