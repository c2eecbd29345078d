/**
  The avatar trigger component itself: the object that holds the pending lists,
  the stay registrations, the two coroutine handles and the allow-list built at
  setup, and whose event handlers and coroutine steps update them in place. Every
  method is tied to the step function of the same name in `TriggerLogic`, and
  the class invariant carries the soundness of both coroutine slots.
*/
module TriggerWrapper {

  import opened Common
  import opened Parameters
  import opened TriggerLogic

  /** The collider the trigger volume uses: one created at setup, or one the object already had. */
  datatype Collider = SphereCollider(radius: real) | BoxCollider(size: Vec3, center: Vec3) | OtherCollider

  /** The rigidbody settings the trigger needs. */
  datatype Body = Body(isKinematic: bool, useGravity: bool)

  /** `List.TrueForAll` over the stay tasks with the "is SetFromDistance" test, element by element. */
  function AllSetFromDistance(tasks: seq<TriggerStayTask>): bool
    decreases |tasks|
  {
    tasks == [] || (tasks[0].updateMethod == SetFromDistance && AllSetFromDistance(tasks[1..]))
  }

  /** The element-wise test holds exactly when every stay task is SetFromDistance. */
  lemma {:induction false} AllSetFromDistanceExact(tasks: seq<TriggerStayTask>)
    ensures AllSetFromDistance(tasks) <==> forall i :: 0 <= i < |tasks| ==> tasks[i].updateMethod == SetFromDistance
    decreases |tasks|
  {
    if tasks != [] {
      AllSetFromDistanceExact(tasks[1..]);
      assert forall i :: 1 <= i < |tasks| ==> tasks[i] == tasks[1..][i - 1];
    }
  }

  /** The sphere-collider predicate: no enter or exit task and only SetFromDistance stay tasks, at least one. */
  predicate UseSphereCollider(cfg: TriggerConfig)
  {
    |cfg.enterTasks| == 0 && |cfg.exitTasks| == 0 && |cfg.stayTasks| > 0 && AllSetFromDistance(cfg.stayTasks)
  }

  /** The collider setup creates when the object has none. */
  function NewCollider(cfg: TriggerConfig): Collider
  {
    if UseSphereCollider(cfg) then SphereCollider(cfg.areaSize.x) else BoxCollider(cfg.areaSize, cfg.areaOffset)
  }

  /**
    The shape choice: a sphere of radius `areaSize.x` exactly when the trigger has no
    enter or exit task and at least one stay task, all of them SetFromDistance; a box
    of size `areaSize` centred at `areaOffset` otherwise.
  */
  lemma ColliderChoice(cfg: TriggerConfig)
    ensures NewCollider(cfg).SphereCollider? <==>
      |cfg.enterTasks| == 0 && |cfg.exitTasks| == 0 && |cfg.stayTasks| > 0 &&
      forall i :: 0 <= i < |cfg.stayTasks| ==> cfg.stayTasks[i].updateMethod == SetFromDistance
    ensures NewCollider(cfg).SphereCollider? ==> NewCollider(cfg).radius == cfg.areaSize.x
    ensures !NewCollider(cfg).SphereCollider? ==> NewCollider(cfg) == BoxCollider(cfg.areaSize, cfg.areaOffset)
  {
    AllSetFromDistanceExact(cfg.stayTasks);
  }

  /** One step of the backward removal loop: the cancelled suffix from index `i` in terms of the one from `i + 1`. */
  lemma CancelFrom(pointers: seq<Pointer>, entries: seq<ScheduledTask>, i: nat, p: Pointer)
    requires |pointers| == |entries| && i < |pointers|
    ensures var rest := Cancel(pointers[i + 1..], entries[i + 1..], p);
      Cancel(pointers[i..], entries[i..], p) == if pointers[i] == p then rest else ([pointers[i]] + rest.0, [entries[i]] + rest.1)
  {
    assert pointers[i..][1..] == pointers[i + 1..] && entries[i..][1..] == entries[i + 1..];
  }

  /** The trigger component of a local avatar, after `Start` found its settings and its avatar. */
  class AvatarTriggerWrapper {
    const trigger: TriggerConfig
    const parameters: ParameterAccess
    const runtimeHash: int

    var collider: Collider
    var body: Body

    /** Whether the pending lists, the stay lists and the allow-list set have been allocated. */
    var pendingAllocated: bool
    var stayAllocated: bool
    var pointerHashes: Option<set<int>>
    var onlyPointerReferences: bool

    var taskPointers: seq<Pointer>
    var taskEntries: seq<ScheduledTask>
    var checker: Coroutine
    var stayPointers: seq<Pointer>
    var stayEntries: seq<StayRef>
    var runner: Coroutine

    /** Everything the events change, as one value. */
    function State(): TriggerState
      reads this, parameters
    {
      TriggerState(parameters.values, taskPointers, taskEntries, checker, stayPointers, stayEntries, runner)
    }

    /**
      The lists are parallel, both coroutine slots are sound, and an advanced trigger
      has its lists and its allow-list as setup builds them.
    */
    predicate Valid()
      reads this, parameters
    {
      && Parallel(State()) && CheckerSound(State()) && RunnerSound(State())
      && (trigger.useAdvancedTrigger ==>
        && pendingAllocated
        && (|trigger.stayTasks| > 0 ==> stayAllocated)
        && pointerHashes == Some(AllowedHashes(trigger))
        && onlyPointerReferences == OnlyPointerReferences(trigger))
    }

    /**
      `Start` on a local avatar: takes the store and the avatar's runtime hash, then
      sets up the shape and the advanced trigger. `existing` is the collider already
      on the object, if any.
    */
    constructor (trigger: TriggerConfig, parameters: ParameterAccess, runtimeHash: int, existing: Option<Collider>)
      ensures Valid()
      ensures this.trigger == trigger && this.parameters == parameters && this.runtimeHash == runtimeHash
      ensures collider == (if existing.Some? then existing.value else NewCollider(trigger))
      ensures body == Body(true, false)
      ensures State() == TriggerState(parameters.values, [], [], Idle, [], [], Idle)
      ensures pendingAllocated == trigger.useAdvancedTrigger
      ensures stayAllocated == (trigger.useAdvancedTrigger && |trigger.stayTasks| > 0)
      ensures trigger.useAdvancedTrigger ==> pointerHashes == Some(AllowedHashes(trigger))
      ensures !trigger.useAdvancedTrigger ==> pointerHashes == None
    {
      this.trigger := trigger;
      this.parameters := parameters;
      this.runtimeHash := runtimeHash;
      collider := OtherCollider;
      body := Body(false, true);
      pendingAllocated := false;
      stayAllocated := false;
      pointerHashes := None;
      onlyPointerReferences := false;
      taskPointers, taskEntries, checker := [], [], Idle;
      stayPointers, stayEntries, runner := [], [], Idle;
      new;
      SetupTriggerShapeIfNeeded(existing);
      SetupAdvancedTriggerIfNeeded();
    }

    /** `SetupTriggerShapeIfNeeded`: a collider is created only when there is none; the rigidbody is made kinematic without gravity. */
    method SetupTriggerShapeIfNeeded(existing: Option<Collider>)
      modifies this`collider, this`body
      ensures collider == (if existing.Some? then existing.value else NewCollider(trigger))
      ensures body == Body(true, false)
    {
      if existing.Some? {
        collider := existing.value;
      } else if UseSphereCollider(trigger) {
        collider := SphereCollider(trigger.areaSize.x);
      } else {
        collider := BoxCollider(trigger.areaSize, trigger.areaOffset);
      }
      body := Body(true, false);
    }

    /**
      `SetupAdvancedTriggerIfNeeded`: a simple trigger allocates nothing; an advanced
      one gets empty pending lists, stay lists when it has stay tasks, and the
      allow-list of referenced pointers or, when there are none, of allowed types.
    */
    method SetupAdvancedTriggerIfNeeded()
      modifies this`pendingAllocated, this`stayAllocated, this`pointerHashes, this`onlyPointerReferences,
        this`taskPointers, this`taskEntries, this`stayPointers, this`stayEntries
      ensures !trigger.useAdvancedTrigger ==> unchanged(this)
      ensures trigger.useAdvancedTrigger ==>
        && pendingAllocated && taskPointers == [] && taskEntries == []
        && stayAllocated == (old(stayAllocated) || |trigger.stayTasks| > 0)
        && (|trigger.stayTasks| > 0 ==> stayPointers == [] && stayEntries == [])
        && (|trigger.stayTasks| == 0 ==> stayPointers == old(stayPointers) && stayEntries == old(stayEntries))
        && pointerHashes == Some(AllowedHashes(trigger))
        && onlyPointerReferences == OnlyPointerReferences(trigger)
    {
      if !trigger.useAdvancedTrigger {
        return;
      }
      pendingAllocated := true;
      taskPointers, taskEntries := [], [];
      if |trigger.stayTasks| > 0 {
        stayAllocated := true;
        stayPointers, stayEntries := [], [];
      }
      var hashes: set<int> := {};
      if |trigger.allowedPointer| > 0 {
        var refs := trigger.allowedPointer;
        for i := 0 to |refs|
          invariant hashes == set h | h in refs[..i]
        {
          assert refs[..i + 1] == refs[..i] + [refs[i]];
          hashes := hashes + {refs[i]};
        }
        assert refs[..|refs|] == refs;
        onlyPointerReferences := true;
      } else {
        var types := trigger.allowedTypes;
        for i := 0 to |types|
          invariant hashes == set h | h in types[..i]
        {
          assert types[..i + 1] == types[..i] + [types[i]];
          hashes := hashes + {types[i]};
        }
        assert types[..|types|] == types;
        onlyPointerReferences := false;
      }
      pointerHashes := Some(hashes);
    }

    /** `CheckPointerCanInteract`. */
    predicate CheckPointerCanInteract(p: Pointer)
      reads this
    {
      CanInteract(trigger, runtimeHash, p)
    }

    /** `CheckAdvancedPointerAllowed`, comparing the wrapped pointer's hash in reference mode. */
    predicate CheckAdvancedPointerAllowed(p: Pointer)
      reads this
      requires pointerHashes.Some?
    {
      AdvancedAllowed(pointerHashes.value, onlyPointerReferences, p)
    }

    // ------------------------------------------------------------ events

    /** `OnTriggerEnter`; `other` is the entering collider's pointer wrapper, if it has one. */
    method OnTriggerEnter(other: Option<Pointer>, m: Moment)
      requires Valid()
      modifies this`taskPointers, this`taskEntries, this`checker, this`stayPointers, this`stayEntries, this`runner, parameters`values
      ensures Valid()
      ensures State() == OnEnter(old(State()), trigger, runtimeHash, other, m)
    {
      ghost var s0 := State();
      EnterKeepsCoroutinesSound(s0, trigger, runtimeHash, other, m);
      if other.None? || !CheckPointerCanInteract(other.value) {
        return;
      }
      var p := other.value;
      if !trigger.useAdvancedTrigger {
        parameters.SetParameter(trigger.settingName, trigger.settingValue);
        assert State() == s0.(values := Write(s0.values, trigger.settingName, trigger.settingValue));
        return;
      }
      if !CheckAdvancedPointerAllowed(p) {
        return;
      }
      assert OnEnter(s0, trigger, runtimeHash, other, m) ==
        ScheduleStays(TriggerLogic.RunAdvancedTriggerTasks(s0, p, trigger.enterTasks, true, m), trigger, p, true, m, |trigger.stayTasks|);
      RunAdvancedTriggerTasks(p, trigger.enterTasks, true, m);
      RunAdvancedTriggerStayTasks(p, true, m);
    }

    /** `OnTriggerExit`. */
    method OnTriggerExit(other: Option<Pointer>, m: Moment)
      requires Valid()
      modifies this`taskPointers, this`taskEntries, this`checker, this`stayPointers, this`stayEntries, this`runner, parameters`values
      ensures Valid()
      ensures State() == OnExit(old(State()), trigger, runtimeHash, other, m)
    {
      ExitKeepsCoroutinesSound(State(), trigger, runtimeHash, other, m);
      if !trigger.useAdvancedTrigger {
        return;
      }
      if other.None? || !CheckPointerCanInteract(other.value) {
        return;
      }
      var p := other.value;
      RunAdvancedTriggerTasks(p, trigger.exitTasks, false, m);
      RunAdvancedTriggerStayTasks(p, false, m);
    }

    /** `OnDestroy`: stops both coroutines. */
    method OnDestroy()
      modifies this`checker, this`runner
      ensures State() == TriggerLogic.OnDestroy(old(State()))
    {
      StopTaskChecker();
      StopStayTaskRunner();
    }

    /** `RunAdvancedTriggerTasks`: drops the pointer's pending entries, then tries each task in order. */
    method RunAdvancedTriggerTasks(p: Pointer, tasks: seq<TriggerTask>, isEnter: bool, m: Moment)
      requires Parallel(State())
      modifies this`taskPointers, this`taskEntries, this`checker, parameters`values
      ensures Parallel(State())
      ensures State() == TriggerLogic.RunAdvancedTriggerTasks(old(State()), p, tasks, isEnter, m)
    {
      CancelPending(p);
      ghost var cancelled := State();
      for k := 0 to |tasks|
        invariant Parallel(State())
        invariant State() == RunTasks(cancelled, p, tasks[..k], isEnter, m)
      {
        assert tasks[..k + 1][..k] == tasks[..k];
        TryRunTriggerTask(tasks[k], p, isEnter, m);
      }
      assert tasks[..|tasks|] == tasks;
    }

    /** The removal loop of `RunAdvancedTriggerTasks`: from the last index down, every entry of pointer `p` leaves both lists. */
    method CancelPending(p: Pointer)
      requires |taskPointers| == |taskEntries|
      modifies this`taskPointers, this`taskEntries
      ensures taskPointers == Cancel(old(taskPointers), old(taskEntries), p).0
      ensures taskEntries == Cancel(old(taskPointers), old(taskEntries), p).1
    {
      ghost var pointers0, entries0 := taskPointers, taskEntries;
      var i := |taskPointers|;
      while i > 0
        invariant 0 <= i <= |pointers0|
        invariant taskPointers == pointers0[..i] + Cancel(pointers0[i..], entries0[i..], p).0
        invariant taskEntries == entries0[..i] + Cancel(pointers0[i..], entries0[i..], p).1
      {
        i := i - 1;
        CancelFrom(pointers0, entries0, i, p);
        ghost var rest := Cancel(pointers0[i + 1..], entries0[i + 1..], p);
        assert taskPointers == pointers0[..i] + ([pointers0[i]] + rest.0);
        assert taskEntries == entries0[..i] + ([entries0[i]] + rest.1);
        if taskPointers[i] == p {
          assert taskPointers[..i] == pointers0[..i] && taskPointers[i + 1..] == rest.0;
          assert taskEntries[..i] == entries0[..i] && taskEntries[i + 1..] == rest.1;
          taskPointers := taskPointers[..i] + taskPointers[i + 1..];
          taskEntries := taskEntries[..i] + taskEntries[i + 1..];
        }
      }
      assert pointers0[..0] == [] && entries0[..0] == [];
      assert pointers0[0..] == pointers0 && entries0[0..] == entries0;
    }

    /** `RunAdvancedTriggerStayTasks`: registers or deregisters each of the trigger's stay tasks in order. */
    method RunAdvancedTriggerStayTasks(p: Pointer, isEnter: bool, m: Moment)
      requires Parallel(State())
      modifies this`stayPointers, this`stayEntries, this`runner, parameters`values
      ensures Parallel(State())
      ensures State() == ScheduleStays(old(State()), trigger, p, isEnter, m, |trigger.stayTasks|)
    {
      for k := 0 to |trigger.stayTasks|
        invariant Parallel(State())
        invariant State() == ScheduleStays(old(State()), trigger, p, isEnter, m, k)
      {
        TryScheduleStayTask(StayRef(k, trigger.stayTasks[k]), p, isEnter, m);
      }
    }

    // ------------------------------------------------------------ enter and exit tasks

    /** `TryRunTriggerTask`. */
    method TryRunTriggerTask(task: TriggerTask, p: Pointer, isEnter: bool, m: Moment)
      requires Parallel(State())
      modifies this`taskPointers, this`taskEntries, this`checker, parameters`values
      ensures Parallel(State())
      ensures State() == TriggerLogic.TryRunTriggerTask(old(State()), task, p, isEnter, m)
    {
      var delay := task.delay;
      if isEnter {
        delay := delay + task.holdTime;
      }
      if delay > 0.0 {
        taskEntries := taskEntries + [ScheduledTask(task, m.now + delay)];
        taskPointers := taskPointers + [p];
        StartDelayedTaskCheckerIfNeeded(m.now);
        return;
      }
      ExecuteTask(task, Some(m.read(p).value));
    }

    /** `ExecuteTask`; `pointerValue` is `None` for a null pointer. */
    method ExecuteTask(task: TriggerTask, pointerValue: Option<real>)
      modifies parameters`values
      ensures parameters.values == TriggerLogic.ExecuteTask(old(parameters.values), task, pointerValue)
    {
      var name := task.settingName;
      match task.updateMethod {
        case Override =>
          parameters.SetParameter(name, task.settingValue);
        case Add =>
          var _, current := parameters.GetParameter(name);
          parameters.SetParameter(name, current + task.settingValue);
        case Subtract =>
          var _, current := parameters.GetParameter(name);
          parameters.SetParameter(name, current - task.settingValue);
        case Toggle =>
          var _, current := parameters.GetParameter(name);
          parameters.SetParameter(name, if current == 0.0 then 1.0 else 0.0);
        case SetFromPointer =>
          if pointerValue.None? {
            return;
          }
          parameters.SetParameter(name, pointerValue.value);
      }
    }

    // ------------------------------------------------------------ the task checker

    /** `StartDelayedTaskCheckerIfNeeded`: the coroutine's first pass runs before its handle is stored. */
    method StartDelayedTaskCheckerIfNeeded(now: real)
      requires Parallel(State())
      modifies this`taskPointers, this`taskEntries, this`checker, parameters`values
      ensures Parallel(State())
      ensures State() == StartChecker(old(State()), now)
    {
      if !checker.handle {
        checker := Coroutine(false, true);
        TaskCheckerPass(now);
        checker := Coroutine(true, checker.alive);
      }
    }

    /** `StopTaskChecker`. */
    method StopTaskChecker()
      modifies this`checker
      ensures State() == StopChecker(old(State()))
    {
      if !checker.handle {
        return;
      }
      checker := Idle;
    }

    /** The checker's pass has handled the entries from `i` on, starting from the given lists and values. */
    ghost predicate CheckerPassed(pointers0: seq<Pointer>, entries0: seq<ScheduledTask>, values0: map<string, real>, i: nat, now: real)
      requires i <= |entries0| == |pointers0|
      reads this, parameters
    {
      && taskPointers == pointers0[..i] + KeepPending(pointers0[i..], entries0[i..], now).0
      && taskEntries == entries0[..i] + KeepPending(pointers0[i..], entries0[i..], now).1
      && parameters.values == RunDue(values0, entries0[i..], now)
    }

    /** The checker visiting entry `i`: a due task runs with a null pointer and leaves both lists. */
    method CheckerVisit(ghost pointers0: seq<Pointer>, ghost entries0: seq<ScheduledTask>, ghost values0: map<string, real>, i: nat, now: real)
      requires i < |entries0| == |pointers0|
      requires CheckerPassed(pointers0, entries0, values0, i + 1, now)
      modifies this`taskPointers, this`taskEntries, parameters`values
      ensures CheckerPassed(pointers0, entries0, values0, i, now)
    {
      assert pointers0[i..][1..] == pointers0[i + 1..] && entries0[i..][1..] == entries0[i + 1..];
      assert taskEntries[i] == entries0[i];
      ghost var kept := KeepPending(pointers0[i + 1..], entries0[i + 1..], now);
      if now >= taskEntries[i].executionTime {
        ExecuteTask(taskEntries[i].task, None);
        CutFromPrefix(pointers0, i, kept.0);
        CutFromPrefix(entries0, i, kept.1);
        taskPointers := taskPointers[..i] + taskPointers[i + 1..];
        taskEntries := taskEntries[..i] + taskEntries[i + 1..];
      } else {
        PrefixThrough(pointers0, i, kept.0);
        PrefixThrough(entries0, i, kept.1);
      }
    }

    /**
      One pass of `TaskCheckerCoroutine`'s loop body: from the last entry down, each
      due task runs with a null pointer and leaves both lists; when none is left the
      coroutine clears its handle and ends.
    */
    method TaskCheckerPass(now: real)
      requires Parallel(State())
      modifies this`taskPointers, this`taskEntries, this`checker, parameters`values
      ensures Parallel(State())
      ensures State() == CheckerIteration(old(State()), now)
    {
      ghost var pointers0, entries0, values0 := taskPointers, taskEntries, parameters.values;
      var i := |taskEntries|;
      while i > 0
        invariant 0 <= i <= |entries0|
        invariant CheckerPassed(pointers0, entries0, values0, i, now)
        invariant checker == old(checker) && stayPointers == old(stayPointers) && stayEntries == old(stayEntries) && runner == old(runner)
      {
        i := i - 1;
        CheckerVisit(pointers0, entries0, values0, i, now);
      }
      assert pointers0[0..] == pointers0 && entries0[0..] == entries0;
      if |taskEntries| == 0 {
        checker := Idle;
      }
    }

    /**
      The checker resuming in a later frame: it ends when nothing is pending, and
      otherwise makes one more pass. Its handle is cleared however it ends.
    */
    method TaskCheckerTick(now: real)
      requires Valid()
      modifies this`taskPointers, this`taskEntries, this`checker, parameters`values
      ensures Valid()
      ensures State() == CheckerResume(old(State()), now)
    {
      EventsKeepCoroutinesSound(State(), trigger, runtimeHash, None, Moment(now, 0.0, _ => CentreReading));
      if !checker.alive {
        return;
      }
      if |taskEntries| == 0 {
        checker := Idle;
        return;
      }
      TaskCheckerPass(now);
    }

    // ------------------------------------------------------------ stay tasks

    /** `TryScheduleStayTask`: registers the pair on enter; on exit removes its first registration and stops an idle runner. */
    method TryScheduleStayTask(t: StayRef, p: Pointer, isEnter: bool, m: Moment)
      requires Parallel(State())
      modifies this`stayPointers, this`stayEntries, this`runner, parameters`values
      ensures Parallel(State())
      ensures State() == TriggerLogic.TryScheduleStayTask(old(State()), trigger, t, p, isEnter, m)
    {
      if isEnter {
        stayEntries := stayEntries + [t];
        stayPointers := stayPointers + [p];
        StartStayTaskRunnerIfNeeded(m);
      } else {
        RemoveStayRegistration(t, p);
        if |stayPointers| == 0 {
          StopStayTaskRunner();
        }
      }
    }

    /** The removal loop of `TryScheduleStayTask`: the first registration of the pair leaves both lists. */
    method RemoveStayRegistration(t: StayRef, p: Pointer)
      requires |stayPointers| == |stayEntries|
      modifies this`stayPointers, this`stayEntries
      ensures stayPointers == RemoveFirstStay(old(stayPointers), old(stayEntries), p, t).0
      ensures stayEntries == RemoveFirstStay(old(stayPointers), old(stayEntries), p, t).1
    {
      ghost var pointers0, entries0 := stayPointers, stayEntries;
      RemoveFirstStayExact(pointers0, entries0, p, t);
      var i := 0;
      while i < |stayPointers|
        invariant 0 <= i <= |pointers0|
        invariant stayPointers == pointers0 && stayEntries == entries0
        invariant forall j :: 0 <= j < i ==> !(pointers0[j] == p && entries0[j] == t)
      {
        if stayPointers[i] == p && stayEntries[i] == t {
          assert FirstStay(pointers0, entries0, p, t) == i;
          stayEntries := stayEntries[..i] + stayEntries[i + 1..];
          stayPointers := stayPointers[..i] + stayPointers[i + 1..];
          return;
        }
        i := i + 1;
      }
      assert FirstStay(pointers0, entries0, p, t) == |pointers0|;
    }

    /** `ExecuteStayTask`, with the pointer's reading for this tick and the fixed step. */
    method ExecuteStayTask(task: TriggerStayTask, r: Reading, fixedDeltaTime: real)
      modifies parameters`values
      ensures parameters.values == TriggerLogic.ExecuteStayTask(old(parameters.values), trigger, task, r, fixedDeltaTime)
    {
      var name := task.settingName;
      match task.updateMethod {
        case SetFromPosition =>
          parameters.SetParameter(name, Lerp(task.minValue, task.maxValue, SampleAlong(trigger.sampleDirection, r)));
        case SetFromDistance =>
          parameters.SetParameter(name, Lerp(task.minValue, task.maxValue, Clamp01(r.magnitude)));
        case StayAdd =>
          var _, current := parameters.GetParameter(name);
          parameters.SetParameter(name, current + StayStep(task, fixedDeltaTime));
        case StaySubtract =>
          var _, current := parameters.GetParameter(name);
          parameters.SetParameter(name, current - StayStep(task, fixedDeltaTime));
        case StaySetFromPointer =>
          parameters.SetParameter(name, r.value);
      }
    }

    /** `StartStayTaskRunnerIfNeeded`. */
    method StartStayTaskRunnerIfNeeded(m: Moment)
      requires Parallel(State())
      modifies this`runner, parameters`values
      ensures Parallel(State())
      ensures State() == StartRunner(old(State()), trigger, m)
    {
      if !runner.handle {
        runner := Coroutine(false, true);
        StayRunnerPass(m);
        runner := Coroutine(true, runner.alive);
      }
    }

    /** `StopStayTaskRunner`. */
    method StopStayTaskRunner()
      modifies this`runner
      ensures State() == StopRunner(old(State()))
    {
      if !runner.handle {
        return;
      }
      runner := Idle;
    }

    /** One pass of `StayTaskRunnerCoroutine`'s loop body: every registered pair runs once, in list order. */
    method StayRunnerPass(m: Moment)
      requires Parallel(State())
      modifies this`runner, parameters`values
      ensures Parallel(State())
      ensures State() == RunnerIteration(old(State()), trigger, m)
    {
      for i := 0 to |stayEntries|
        invariant parameters.values == RunStays(old(parameters.values), trigger, stayPointers[..i], stayEntries[..i], m)
        invariant runner == old(runner)
      {
        assert stayPointers[..i + 1][..i] == stayPointers[..i] && stayEntries[..i + 1][..i] == stayEntries[..i];
        ExecuteStayTask(stayEntries[i].task, m.read(stayPointers[i]), m.fixedDeltaTime);
      }
      assert stayPointers[..|stayPointers|] == stayPointers && stayEntries[..|stayEntries|] == stayEntries;
      if |stayEntries| == 0 {
        runner := Idle;
      }
    }

    /** The runner resuming after a fixed update. */
    method StayRunnerTick(m: Moment)
      requires Valid()
      modifies this`runner, parameters`values
      ensures Valid()
      ensures State() == RunnerResume(old(State()), trigger, m)
    {
      EventsKeepCoroutinesSound(State(), trigger, runtimeHash, None, m);
      if !runner.alive {
        return;
      }
      if |stayEntries| == 0 {
        assert false;
      } else {
        StayRunnerPass(m);
      }
    }
  }
}
