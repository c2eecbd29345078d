# AASEmulator avatar-parameter core, in Dafny

A model of the avatar-parameter logic of the AASEmulator Unity package. The
package emulates an avatar's advanced-settings (AAS) parameters in the editor.
Every component below reads and writes one parameter store: a map from parameter
names to float values over a fixed set of known names.

- `Parameters` (`parameters.dfy`) models the store, `ParameterAccess`. Reading an
  unknown name gives 0. Writing an unknown name does nothing. Enumeration follows the
  declared order and carries each parameter's `CanSaveToProfile` flag.
- `Menu` (`menu.dfy`) models `AASMenu`. It builds one menu entry per schema setting,
  binds the entry to one, two or three parameters by a fixed suffix table, and seeds
  each entry from the store. The per-kind default triple is a pure function.
- `Profiles` (`profiles.dfy`) models `AvatarProfileManager`. It keeps named snapshots
  of the savable parameters. "Default" is listed after every reset, and loading it
  writes the schema's declared defaults, even when a profile is also stored under
  that name.
- `TriggerLogic` and `TriggerWrapper` (`trigger_logic.dfy`, `trigger_wrapper.dfy`)
  model the four `CVRAvatarTriggerWrapper` partial files:
  - pointer admission and the allow-list;
  - enter/exit tasks that run at once or wait in a pair of parallel pending lists;
  - the polled checker that fires due tasks;
  - stay tasks run once per fixed tick;
  - collider choice and setup.

  `TriggerLogic` holds each step as a function on one state value. The class
  `TriggerWrapper.AvatarTriggerWrapper` keeps the same fields and its methods,
  loops included, are proved to perform those steps. Its invariant says that a
  coroutine is alive whenever its list is non-empty. The class admits pointers by
  the corrected allow-list check, `TriggerLogic.AdvancedAllowed`, which looks up
  the referenced pointer component; the check as written, which looks up the
  wrapper, is kept beside it (see "## Findings").
- `EmulatorRuntime` (`emulator_runtime.dfy`) models the input state of
  `AASEmulatorRuntime`:
  - the gesture float/index mapping with its Fist rule;
  - the viseme mirror and the movement clamp;
  - the viseme smoothing factor;
  - the emote pulse and cancel state machine across Update, FixedUpdate and
    `Apply_CoreParameters`.
- `Utilities` (`utilities.dfy`) models `ByteToBoolArrayNoAlloc`, with a packing
  function as its inverse.
- `TransformHider` (`transform_hider.dfy`) models the CPU side of
  `SkinnedTransformHider`:
  - `FindExclusionVertList` assigns each vertex to at most one first-person
    exclusion, using the four bone-weight slots;
  - the vertex-buffer stride;
  - the compute thread-group count.

Coroutines become explicit tick methods. Each coroutine slot is a pair: whether a
handle is stored, and whether the coroutine behind it still runs. Unity runs a
coroutine's first step inside `StartCoroutine`, before `??=` stores the handle. The
`Start…IfNeeded` steps therefore run one iteration and then set the handle.

The following become inputs:
- time (`now`, the fixed step);
- a pointer's value and its normalized position inside the trigger volume;
- the profile file's content.

## Model

| member | source | states |
|---|---|---|
| Common.Clamp | Runtime/Scripts/AASEmulatorRuntime.cs:180-184 | the result lies in [lo, hi], and a value already inside is kept (the per-axis clamp of `Movement`) |
| Common.Clamp01 | Runtime/Scripts/TransformHider/ITransformHider/SkinnedTransformHider.cs:226 | the result lies in [0, 1], and a value already inside is kept |
| Parameters.Write | Runtime/Scripts/Wrappers/CVRAvatarTriggerWrapper.Tasks.cs:46-63 | a write changes only the named parameter; a write to a name the store does not hold leaves the store as it was |
| Parameters.WriteAll | Runtime/Scripts/SubSystems/AnimatorManager/AvatarProfileManager.cs:145-148 | a sequence of writes never adds or removes a parameter |
| Parameters.WriteAllLastWins | Runtime/Scripts/SubSystems/AnimatorManager/AvatarProfileManager.cs:145-148 | after writing a list of (name, value) pairs, each parameter holds the value of the last pair naming it, or its old value when none does |
| Parameters.WriteAllAppend | Runtime/Scripts/SubSystems/AnimatorManager/AvatarProfileManager.cs:93-120 | writing two lists one after the other is writing their concatenation |
| Parameters.LastWriteOfDistinct | Runtime/Scripts/SubSystems/AnimatorManager/AvatarProfileManager.cs:99-117 | in a list with distinct names, the last write to a name is its only write |
| Parameters.ParameterAccess.SetParameter | Runtime/Scripts/Wrappers/CVRAvatarTriggerWrapper.Tasks.cs:47 | the store after the call is `Write` of the store before |
| Parameters.ParameterAccess.GetParameter | Runtime/Scripts/AASMenu.cs:106 | reports whether the name is known; a known name yields its value, an unknown one 0 |
| Menu.Suffixes | Runtime/Scripts/AASMenu.cs:74-91 | one to three suffixes, all distinct (-x/-y for 2D types, -x/-y/-z for 3D types, -r/-g/-b for colour, the empty suffix otherwise) |
| Menu.DefaultValue | Runtime/Scripts/AASMenu.cs:149-166 | components past the setting's dimension are 0; a toggle gives 1 exactly when on and 0 exactly when off; a dropdown gives its default index |
| Menu.ConsistentDimension | Runtime/Scripts/AASMenu.cs:74-91 | for a setting whose class matches its declared type, the default has exactly as many meaningful components as the type has suffixes |
| Menu.SeededFromOwnParameters | Runtime/Scripts/AASMenu.cs:101-121 | component k of a new entry is the store value of machine name + suffix k for k below the suffix count, and 0 beyond it |
| Menu.AASMenu.constructor | Runtime/Scripts/AASMenu.cs:62 | a new menu has no entries |
| Menu.MenuEntry.constructor | Runtime/Scripts/AASMenu.cs:93-96 | a new entry holds its schema entry, zero components and no options |
| Menu.AASMenu.SetupAASMenus | Runtime/Scripts/AASMenu.cs:60-127 | a missing schema leaves no entries; otherwise one fresh entry per schema entry, in schema order, seeded from the store, with options only for dropdowns |
| Menu.AASMenu.CreateEntry | Runtime/Scripts/AASMenu.cs:93-121 | a fresh entry for one schema entry: options only for a dropdown, and component k seeded from the store value of machine name + suffix k when that parameter exists |
| Profiles.ProfileFileId | Runtime/Scripts/SubSystems/AnimatorManager/AvatarProfileManager.cs:27 | a missing or empty avatar id becomes the nil UUID; any other id is kept |
| Profiles.DefaultWritesFollowSuffixes | Runtime/Scripts/SubSystems/AnimatorManager/AvatarProfileManager.cs:99-117 | loading defaults writes one value per suffix, component k to machine name + suffix k |
| Profiles.DefaultWritesApplied | Runtime/Scripts/SubSystems/AnimatorManager/AvatarProfileManager.cs:99-117 | the default writes per setting type: -r/-g/-b for colour, -x/-y for 2D, -x/-y/-z for 3D, the bare machine name otherwise |
| Profiles.ParameterNamesDistinct | Runtime/Scripts/SubSystems/AnimatorManager/AvatarProfileManager.cs:99-117 | the parameters of one entry have distinct names |
| Profiles.DefaultsThenSeed | Runtime/Scripts/SubSystems/AnimatorManager/AvatarProfileManager.cs:93-120 | after loading "Default", seeding an entry from the store yields the declared default |
| Profiles.RefreshAgreesWithSeed | Runtime/Scripts/SubSystems/AnimatorManager/AvatarProfileManager.cs:230-257 | refreshing an entry reads the same parameters as seeding it; a 2D entry also reads "-z" into its third component; a one-parameter entry keeps its other components |
| Profiles.SavedValuesExact | Runtime/Scripts/SubSystems/AnimatorManager/AvatarProfileManager.cs:162-168 | a saved profile holds exactly the enumerated parameters whose `CanSaveToProfile` flag is set |
| Profiles.LastSavedWrite | Runtime/Scripts/SubSystems/AnimatorManager/AvatarProfileManager.cs:162-168 | the last saved write to a name is its value at save time if the name was savable, and no write otherwise |
| Profiles.LastSavedWriteStep | Runtime/Scripts/SubSystems/AnimatorManager/AvatarProfileManager.cs:162-168 | the last write of a saved profile to a name is the last enumerated parameter's value when that parameter is savable and of that name, and otherwise the last write of the profile saved from the earlier parameters |
| Profiles.SaveLoadRoundTrip | Runtime/Scripts/SubSystems/AnimatorManager/AvatarProfileManager.cs:145-178 | saving and later loading a profile restores every savable parameter to its value at save time and leaves the others untouched |
| Profiles.LoadSavedValid | Runtime/Scripts/SubSystems/AnimatorManager/AvatarProfileManager.cs:316-321 | adding loaded profiles keeps every stored profile under its own name and listed, never removes a profile, and keeps the names already listed at the front |
| Profiles.LoadSavedListing | Runtime/Scripts/SubSystems/AnimatorManager/AvatarProfileManager.cs:316-321 | the added profiles' names follow the names already listed, in file order; the flag is set exactly when the whole list was added |
| Profiles.LoadSavedStores | Runtime/Scripts/SubSystems/AnimatorManager/AvatarProfileManager.cs:316-321 | profiles stored before are kept unchanged; each added profile is stored under its own name; a name is stored afterwards only if it was before or the load listed it |
| Profiles.LoadSavedStopsAtRepeat | Runtime/Scripts/SubSystems/AnimatorManager/AvatarProfileManager.cs:316-321 | the added profiles have pairwise different names, and adding stops only at a name already stored before the load or earlier in the file |
| Profiles.RemoveFirstExact | Runtime/Scripts/SubSystems/AnimatorManager/AvatarProfileManager.cs:188-189 | removing a name takes out exactly one occurrence of it and leaves every other name listed as before |
| Profiles.AvatarProfileManager.constructor | Runtime/Scripts/SubSystems/AnimatorManager/AvatarProfileManager.cs:19-30 | the id falls back to the nil UUID; a new manager has no profiles, no names and no selection, and its profiles object exists |
| Profiles.AvatarProfileManager.SetupManager | Runtime/Scripts/SubSystems/AnimatorManager/AvatarProfileManager.cs:62-72 | the profile file is read, and a null document drops the profiles object; a profile is loaded only when the selected name is non-empty and stored; otherwise neither the store nor the menu changes |
| Profiles.AvatarProfileManager.ResetProfileData | Runtime/Scripts/SubSystems/AnimatorManager/AvatarProfileManager.cs:76-87 | names are exactly ["Default"], no profile is stored and the selection is empty |
| Profiles.AvatarProfileManager.LoadProfileDataFromDisk | Runtime/Scripts/SubSystems/AnimatorManager/AvatarProfileManager.cs:289-330 | without a directory or file, or with content that does not deserialize, nothing changes; a null document drops the profiles object and adds nothing; a document replaces it, and unless its list is null its profiles are added in file order, the selection taken only if all of them were added |
| Profiles.AvatarProfileManager.LoadDefaultProfile | Runtime/Scripts/SubSystems/AnimatorManager/AvatarProfileManager.cs:93-120 | the store receives every entry's default writes, in menu order |
| Profiles.AvatarProfileManager.LoadProfile | Runtime/Scripts/SubSystems/AnimatorManager/AvatarProfileManager.cs:127-149 | the selection becomes the name; "Default" writes the defaults, a stored profile writes its pairs in order, an unknown name writes nothing; the menu is refreshed exactly when something was loaded |
| Profiles.AvatarProfileManager.SaveProfile | Runtime/Scripts/SubSystems/AnimatorManager/AvatarProfileManager.cs:154-181 | the profile under the name is replaced by the savable parameters; a new name is appended once; the selection is kept; the file is written unless the profiles object is null |
| Profiles.AvatarProfileManager.DeleteProfile | Runtime/Scripts/SubSystems/AnimatorManager/AvatarProfileManager.cs:186-190 | a stored name is removed from both collections; an unknown name changes nothing; a write of the file is attempted, as `WriteProfileDataToDisk` says |
| Profiles.AvatarProfileManager.CreateProfile | Runtime/Scripts/SubSystems/AnimatorManager/AvatarProfileManager.cs:195-212 | an existing name changes nothing; a new one gets an empty profile and is appended; the selection is kept |
| Profiles.AvatarProfileManager.SetDefaultProfile | Runtime/Scripts/SubSystems/AnimatorManager/AvatarProfileManager.cs:217-228 | the selection changes, and a write of the file is attempted, only for a stored name |
| Profiles.AvatarProfileManager.WriteProfileDataToDisk | Runtime/Scripts/SubSystems/AnimatorManager/AvatarProfileManager.cs:335-363 | with a profile directory and the profiles object present the written snapshot is the id, the stored profiles and the selection; without a directory, or after a null document, nothing is written |
| Profiles.AvatarProfileManager.UpdateAASMenuEntries | Runtime/Scripts/SubSystems/AnimatorManager/AvatarProfileManager.cs:230-257 | every entry's components are re-read from the store by its type's suffixes; options are untouched |
| Profiles.AvatarProfileManager.RefreshEntry | Runtime/Scripts/SubSystems/AnimatorManager/AvatarProfileManager.cs:234-255 | one entry's components become `Refreshed` of the store: three reads for colour, 2D and 3D types, one read into x otherwise |
| TriggerLogic.CanInteractCases | Runtime/Scripts/Wrappers/CVRAvatarTriggerWrapper.cs:99-106 | a pointer on this avatar may interact iff the trigger is locally interactable, and a pointer elsewhere iff it is network interactable |
| TriggerLogic.AllowListPriority | Runtime/Scripts/Wrappers/CVRAvatarTriggerWrapper.Setup.cs:76-86 | an empty allow-list admits everyone; referenced pointers, when any, decide alone (by pointer identity) and the types are ignored; otherwise the pointer's type decides |
| TriggerLogic.AllowListAsWrittenRejectsListedPointer | Runtime/Scripts/Wrappers/CVRAvatarTriggerWrapper.cs:108-112 | the check as written hashes the wrapper, so a listed pointer is refused; the corrected check admits it |
| TriggerLogic.ExecuteTask | Runtime/Scripts/Wrappers/CVRAvatarTriggerWrapper.Tasks.cs:40-68 | a task changes only its own parameter |
| TriggerLogic.AddThenSubtract | Runtime/Scripts/Wrappers/CVRAvatarTriggerWrapper.Tasks.cs:49-56 | Add then Subtract of the same amount restores the store |
| TriggerLogic.ToggleTwice | Runtime/Scripts/Wrappers/CVRAvatarTriggerWrapper.Tasks.cs:57-59 | Toggle writes 1 when the value is 0 and 0 otherwise; on a 0/1 value toggling twice restores it |
| TriggerLogic.SetFromPointerNeedsPointer | Runtime/Scripts/Wrappers/CVRAvatarTriggerWrapper.Tasks.cs:61-64 | with no pointer nothing is written; with one its value is written |
| TriggerLogic.Cancel | Runtime/Scripts/Wrappers/CVRAvatarTriggerWrapper.cs:119-125 | cancelling keeps the parallel lists of equal length and never longer |
| TriggerLogic.CancelExact | Runtime/Scripts/Wrappers/CVRAvatarTriggerWrapper.cs:119-125 | after cancelling a pointer none of its entries remain, every other pointer keeps exactly its entries in order, and an absent pointer changes nothing |
| TriggerLogic.KeepPendingExact | Runtime/Scripts/Wrappers/CVRAvatarTriggerWrapper.TaskManagment.cs:30-37 | a checker pass keeps exactly the entries not yet due, each as often as before |
| TriggerLogic.DelayedSetFromPointerWritesNothing | Runtime/Scripts/Wrappers/CVRAvatarTriggerWrapper.TaskManagment.cs:34 | because due tasks run with a null pointer, delayed SetFromPointer tasks never write |
| TriggerLogic.NotDueAppended | Runtime/Scripts/Wrappers/CVRAvatarTriggerWrapper.TaskManagment.cs:28-37 | an entry not yet due at the end of the lists survives the checker's pass, still last, and adds no write to it |
| TriggerLogic.QueuedWaitsForItsTime | Runtime/Scripts/Wrappers/CVRAvatarTriggerWrapper.Tasks.cs:23-38 | after a task is queued with a positive delay, a checker pass at any moment before it is due keeps it pending at the end of the lists, keeps the checker running, and writes only what the pass writes for the other entries |
| TriggerLogic.TryRunTriggerTaskEffect | Runtime/Scripts/Wrappers/CVRAvatarTriggerWrapper.Tasks.cs:23-38 | a positive effective delay (delay + hold on enter, delay on exit) appends the entry and the pointer and starts the checker without writing; otherwise the task runs at once with the pointer |
| TriggerLogic.RunTasksSingle | Runtime/Scripts/Wrappers/CVRAvatarTriggerWrapper.cs:114-130 | with nothing pending, running one task is trying that task |
| TriggerLogic.StopChecker | Runtime/Scripts/Wrappers/CVRAvatarTriggerWrapper.TaskManagment.cs:17-22 | stopping clears the checker handle and changes nothing else |
| TriggerLogic.StopRunner | Runtime/Scripts/Wrappers/CVRAvatarTriggerWrapper.TaskManagment.cs:59-65 | stopping clears the runner handle and changes nothing else |
| TriggerLogic.StartStopIdempotent | Runtime/Scripts/Wrappers/CVRAvatarTriggerWrapper.TaskManagment.cs:12-22 | start holds a handle and is idempotent, start with a handle does nothing, stop is idempotent and a no-op without a handle, for the checker and the runner |
| TriggerLogic.Lerp | Runtime/Scripts/Wrappers/CVRAvatarTriggerWrapper.Tasks.cs:160-163 | for min <= max the result lies between them; t <= 0 gives min and t >= 1 gives max |
| TriggerLogic.SampleAlong | Runtime/Scripts/Wrappers/CVRAvatarTriggerWrapper.Tasks.cs:135-147 | the sampled fraction lies in [0, 1] |
| TriggerLogic.NegativeDirectionMirrors | Runtime/Scripts/Wrappers/CVRAvatarTriggerWrapper.Tasks.cs:135-147 | each negative direction samples 1 minus the positive one |
| TriggerLogic.StaySample | Runtime/Scripts/Wrappers/CVRAvatarTriggerWrapper.Tasks.cs:129-158 | position and distance samples lie in [0, 1] |
| TriggerLogic.ExecuteStayTask | Runtime/Scripts/Wrappers/CVRAvatarTriggerWrapper.Tasks.cs:98-181 | a stay task changes only its own parameter |
| TriggerLogic.StaySamplingBounds | Runtime/Scripts/Wrappers/CVRAvatarTriggerWrapper.Tasks.cs:149-163 | a sampled write lies within [min, max] when min <= max; in Distance mode a pointer at the centre of the volume writes min, and one at a corner or at least the unit length from the centre writes max |
| TriggerLogic.CentredSquareAtCentreAndCorner | Runtime/Scripts/Wrappers/CVRAvatarTriggerWrapper.Tasks.cs:149-158 | the squared length of the centred position vector is 0 at the centre and 3 at a corner |
| TriggerLogic.StayAddSubtract | Runtime/Scripts/Wrappers/CVRAvatarTriggerWrapper.Tasks.cs:167-174 | stay Add and Subtract change the value by plus or minus minValue times the fixed step, and undo each other |
| TriggerLogic.FirstStay | Runtime/Scripts/Wrappers/CVRAvatarTriggerWrapper.Tasks.cs:87-93 | the first registration of the (task, pointer) pair, or the end when there is none |
| TriggerLogic.RemoveFirstStayExact | Runtime/Scripts/Wrappers/CVRAvatarTriggerWrapper.Tasks.cs:87-93 | only the first matching registration is removed; without a match nothing changes |
| TriggerLogic.RemoveFirstStayFound | Runtime/Scripts/Wrappers/CVRAvatarTriggerWrapper.Tasks.cs:87-93 | when the pair is registered, deregistration cuts exactly its first registration out of both lists |
| TriggerLogic.RemoveFirstStayAbsent | Runtime/Scripts/Wrappers/CVRAvatarTriggerWrapper.Tasks.cs:87-93 | when the pair is not registered, deregistration leaves both lists unchanged |
| TriggerLogic.EventAdmission | Runtime/Scripts/Wrappers/CVRAvatarTriggerWrapper.cs:61-93 | no pointer or a refused pointer changes nothing; a simple trigger's exit changes nothing and its enter writes exactly its setting; a pointer failing the allow-list changes nothing |
| TriggerLogic.OnDestroy | Runtime/Scripts/Wrappers/CVRAvatarTriggerWrapper.cs:55-59 | destroying stops both coroutines and changes nothing else |
| TriggerLogic.DestroyStopsBoth | Runtime/Scripts/Wrappers/CVRAvatarTriggerWrapper.cs:55-59 | after destruction both slots are idle, and the checker slot is sound only if nothing was pending |
| TriggerLogic.CancelKeepsCheckerSound | Runtime/Scripts/Wrappers/CVRAvatarTriggerWrapper.cs:119-125 | cancelling keeps the checker alive whenever tasks are pending |
| TriggerLogic.RunTasksKeepsCheckerSound | Runtime/Scripts/Wrappers/CVRAvatarTriggerWrapper.cs:126-129 | running enter or exit tasks keeps the checker alive whenever tasks are pending, and leaves the stay lists alone |
| TriggerLogic.ScheduleStaysKeepsRunnerSound | Runtime/Scripts/Wrappers/CVRAvatarTriggerWrapper.cs:132-140 | stay registration keeps the runner alive whenever stays are registered, and leaves the pending lists alone |
| TriggerLogic.EventsKeepCoroutinesSound | Runtime/Scripts/Wrappers/CVRAvatarTriggerWrapper.TaskManagment.cs:24-47 | with the corrected checker, every event and tick keeps a live coroutine behind every non-empty list |
| TriggerLogic.EnterKeepsCoroutinesSound | Runtime/Scripts/Wrappers/CVRAvatarTriggerWrapper.cs:61-79 | after an enter event a stored checker handle belongs to a running checker that exists whenever tasks are pending, and the runner runs exactly while stay pairs are registered |
| TriggerLogic.ExitKeepsCoroutinesSound | Runtime/Scripts/Wrappers/CVRAvatarTriggerWrapper.cs:81-93 | after an exit event a stored checker handle belongs to a running checker that exists whenever tasks are pending, and the runner runs exactly while stay pairs are registered |
| TriggerLogic.CheckerAsWrittenStrandsTasks | Runtime/Scripts/Wrappers/CVRAvatarTriggerWrapper.TaskManagment.cs:26 | as written, a checker whose list was emptied by a cancel ends but keeps its handle, so a later delayed task is never run; the corrected checker runs it |
| TriggerLogic.CheckerIteration | Runtime/Scripts/Wrappers/CVRAvatarTriggerWrapper.TaskManagment.cs:28-37 | one checker pass keeps the parallel lists parallel |
| TriggerWrapper.AllSetFromDistanceExact | Runtime/Scripts/Wrappers/CVRAvatarTriggerWrapper.Setup.cs:45-52 | the stay-task test holds iff every stay task is SetFromDistance |
| TriggerWrapper.ColliderChoice | Runtime/Scripts/Wrappers/CVRAvatarTriggerWrapper.Setup.cs:17-33 | a sphere is chosen iff there are no enter and no exit tasks, some stay tasks, all SetFromDistance; its radius is areaSize.x; otherwise a box of areaSize at areaOffset |
| TriggerWrapper.AvatarTriggerWrapper.constructor | Runtime/Scripts/Wrappers/CVRAvatarTriggerWrapper.cs:34-53 | an existing collider is kept or the chosen one added, the body is kinematic without gravity, the lists are empty, allocated as the trigger needs |
| TriggerWrapper.AvatarTriggerWrapper.SetupTriggerShapeIfNeeded | Runtime/Scripts/Wrappers/CVRAvatarTriggerWrapper.Setup.cs:12-43 | a collider is made only when none exists |
| TriggerWrapper.AvatarTriggerWrapper.SetupAdvancedTriggerIfNeeded | Runtime/Scripts/Wrappers/CVRAvatarTriggerWrapper.Setup.cs:59-87 | a simple trigger allocates nothing; an advanced one allocates the pending lists, the stay lists only for stay tasks, and the allow-list and its mode |
| TriggerWrapper.AvatarTriggerWrapper.OnTriggerEnter | Runtime/Scripts/Wrappers/CVRAvatarTriggerWrapper.cs:61-79 | the new state is `OnEnter` of the old one, with the corrected allow-list check in place of the wrapper-hash lookup, and the coroutine invariant is kept |
| TriggerWrapper.AvatarTriggerWrapper.OnTriggerExit | Runtime/Scripts/Wrappers/CVRAvatarTriggerWrapper.cs:81-93 | the new state is `OnExit` of the old one, and the coroutine invariant is kept |
| TriggerWrapper.AvatarTriggerWrapper.OnDestroy | Runtime/Scripts/Wrappers/CVRAvatarTriggerWrapper.cs:55-59 | both coroutines are stopped |
| TriggerWrapper.AvatarTriggerWrapper.RunAdvancedTriggerTasks | Runtime/Scripts/Wrappers/CVRAvatarTriggerWrapper.cs:114-130 | pending work of the pointer is cancelled, then each task is tried in order |
| TriggerWrapper.AvatarTriggerWrapper.CancelPending | Runtime/Scripts/Wrappers/CVRAvatarTriggerWrapper.cs:119-125 | the backward RemoveAt loop leaves the lists `Cancel` describes |
| TriggerWrapper.AvatarTriggerWrapper.RunAdvancedTriggerStayTasks | Runtime/Scripts/Wrappers/CVRAvatarTriggerWrapper.cs:132-140 | each stay task is registered or deregistered for the pointer, in order |
| TriggerWrapper.AvatarTriggerWrapper.TryRunTriggerTask | Runtime/Scripts/Wrappers/CVRAvatarTriggerWrapper.Tasks.cs:23-38 | the new state is that of `TryRunTriggerTask` |
| TriggerWrapper.AvatarTriggerWrapper.ExecuteTask | Runtime/Scripts/Wrappers/CVRAvatarTriggerWrapper.Tasks.cs:40-68 | the store after the call is `ExecuteTask` of the store before |
| TriggerWrapper.AvatarTriggerWrapper.StartDelayedTaskCheckerIfNeeded | Runtime/Scripts/Wrappers/CVRAvatarTriggerWrapper.TaskManagment.cs:12-15 | without a handle one checker pass runs and the handle is set; with one nothing happens |
| TriggerWrapper.AvatarTriggerWrapper.StopTaskChecker | Runtime/Scripts/Wrappers/CVRAvatarTriggerWrapper.TaskManagment.cs:17-22 | the checker handle is cleared |
| TriggerWrapper.AvatarTriggerWrapper.TaskCheckerPass | Runtime/Scripts/Wrappers/CVRAvatarTriggerWrapper.TaskManagment.cs:28-37 | the backward loop runs exactly the due entries with no pointer and keeps the others in order |
| TriggerWrapper.AvatarTriggerWrapper.CheckerVisit | Runtime/Scripts/Wrappers/CVRAvatarTriggerWrapper.TaskManagment.cs:30-36 | visiting index i extends the handled suffix by one entry: a due entry runs with no pointer and leaves both lists, one not yet due stays in place |
| TriggerWrapper.AvatarTriggerWrapper.TaskCheckerTick | Runtime/Scripts/Wrappers/CVRAvatarTriggerWrapper.TaskManagment.cs:24-47 | one resumption of the corrected checker, keeping the coroutine invariant |
| TriggerWrapper.AvatarTriggerWrapper.TryScheduleStayTask | Runtime/Scripts/Wrappers/CVRAvatarTriggerWrapper.Tasks.cs:74-96 | enter appends the pair and starts the runner; exit removes the first matching pair and stops the runner when none remain |
| TriggerWrapper.AvatarTriggerWrapper.RemoveStayRegistration | Runtime/Scripts/Wrappers/CVRAvatarTriggerWrapper.Tasks.cs:87-93 | the loop removes the first matching pair, as `RemoveFirstStay` says |
| TriggerWrapper.AvatarTriggerWrapper.ExecuteStayTask | Runtime/Scripts/Wrappers/CVRAvatarTriggerWrapper.Tasks.cs:98-181 | the store after the call is `ExecuteStayTask` of the store before |
| TriggerWrapper.AvatarTriggerWrapper.StartStayTaskRunnerIfNeeded | Runtime/Scripts/Wrappers/CVRAvatarTriggerWrapper.TaskManagment.cs:53-57 | without a handle one runner pass runs and the handle is set; with one nothing happens |
| TriggerWrapper.AvatarTriggerWrapper.StopStayTaskRunner | Runtime/Scripts/Wrappers/CVRAvatarTriggerWrapper.TaskManagment.cs:59-65 | the runner handle is cleared |
| TriggerWrapper.AvatarTriggerWrapper.StayRunnerPass | Runtime/Scripts/Wrappers/CVRAvatarTriggerWrapper.TaskManagment.cs:72-83 | every registered pair runs exactly once, in list order |
| TriggerWrapper.AvatarTriggerWrapper.StayRunnerTick | Runtime/Scripts/Wrappers/CVRAvatarTriggerWrapper.TaskManagment.cs:67-87 | one resumption of the runner, keeping the coroutine invariant |
| EmulatorRuntime.GestureFromFloatCases | Runtime/Scripts/AASEmulatorRuntime.cs:131-145 | a value in (0, 1] gives Fist, any other floor(v + 1); the slider range [-1, 6] maps into the eight gestures |
| EmulatorRuntime.GestureRoundTrip | Runtime/Scripts/AASEmulatorRuntime.cs:121-155 | index to float to index is the identity |
| EmulatorRuntime.GestureIndexStable | Runtime/Scripts/AASEmulatorRuntime.cs:121-171 | writing back the float of a derived index derives the same index |
| EmulatorRuntime.RoundToIntProperties | Runtime/Scripts/AASEmulatorRuntime.cs:207-211 | rounding keeps integers, moves by at most one half, and gives 0 exactly on [-0.5, 0.5] |
| EmulatorRuntime.SmoothingFactor | Runtime/Scripts/AASEmulatorRuntime.cs:305 | the factor lies in [0.01, 1] |
| EmulatorRuntime.SmoothingFactorShape | Runtime/Scripts/AASEmulatorRuntime.cs:305 | more smoothing never raises the factor; smoothing <= 0 gives 1, >= 99 gives 0.01, 50 gives 0.5 |
| EmulatorRuntime.EmotePulse | Runtime/Scripts/AASEmulatorRuntime.cs:401-427 | an emote seen at one Update is reset to 0 at the next; an unseen one is kept |
| EmulatorRuntime.CancelFiresOnce | Runtime/Scripts/AASEmulatorRuntime.cs:429-437 | the fixed tick sets CancelEmote iff moving while playing (or already set); a frame fires the cancel iff set and not already cancelled, clears it, and the next frame fires nothing |
| EmulatorRuntime.AASEmulatorRuntime.constructor | Runtime/Scripts/AASEmulatorRuntime.cs:104-105 | defaults are set and the smoothing factor matches the avatar's smoothing, or 50 without an avatar |
| EmulatorRuntime.AASEmulatorRuntime.SetValuesToDefault | Runtime/Scripts/AASEmulatorRuntime.cs:285-297 | viseme 0, both gestures 0 with Neutral, grounded |
| EmulatorRuntime.AASEmulatorRuntime.InitializeSmoothing | Runtime/Scripts/AASEmulatorRuntime.cs:299-321 | with an avatar, the smoothing and its factor are taken from it; otherwise both are kept |
| EmulatorRuntime.AASEmulatorRuntime.RefreshSmoothing | Runtime/Scripts/AASEmulatorRuntime.cs:365-367 | the factor is recomputed from the current smoothing |
| EmulatorRuntime.AASEmulatorRuntime.SetVisemeIdx | Runtime/Scripts/AASEmulatorRuntime.cs:84-92 | the enum and the int mirror stay equal |
| EmulatorRuntime.AASEmulatorRuntime.SetViseme | Runtime/Scripts/AASEmulatorRuntime.cs:94-102 | the int and the enum mirror stay equal |
| EmulatorRuntime.AASEmulatorRuntime.SetGestureLeft | Runtime/Scripts/AASEmulatorRuntime.cs:131-145 | the index is derived from the float by the Fist rule |
| EmulatorRuntime.AASEmulatorRuntime.SetGestureLeftIdx | Runtime/Scripts/AASEmulatorRuntime.cs:121-129 | the float is the index minus one |
| EmulatorRuntime.AASEmulatorRuntime.SetGestureRight | Runtime/Scripts/AASEmulatorRuntime.cs:157-171 | the index is derived from the float by the Fist rule |
| EmulatorRuntime.AASEmulatorRuntime.SetGestureRightIdx | Runtime/Scripts/AASEmulatorRuntime.cs:147-155 | the float is the index minus one |
| EmulatorRuntime.AASEmulatorRuntime.SetMovement | Runtime/Scripts/AASEmulatorRuntime.cs:180-184 | each axis is clamped into [-1, 1] |
| EmulatorRuntime.AASEmulatorRuntime.UpdateEmoteValuesUpdate | Runtime/Scripts/AASEmulatorRuntime.cs:401-427 | the emote fields after the Update step are `EmoteUpdate` of those before |
| EmulatorRuntime.AASEmulatorRuntime.UpdateEmoteValuesFixedUpdate | Runtime/Scripts/AASEmulatorRuntime.cs:429-437 | the emote fields after the fixed step are `EmoteFixedUpdate` of those before, moving meaning a non-zero axis |
| EmulatorRuntime.AASEmulatorRuntime.ApplyCoreParameters | Runtime/Scripts/AASEmulatorRuntime.cs:487-494 | the hand-layer weight follows the playing flag and the cancel fires as `ApplyCancel` says |
| Utilities.Pack | Runtime/Scripts/SubSystems/AnimatorManager/Utilities.cs:7-21 | packing n bools takes one byte per started group of eight |
| Utilities.PackByteBits | Runtime/Scripts/SubSystems/AnimatorManager/Utilities.cs:19 | bit j of a packed byte is bool j, and clear past the end |
| Utilities.PackBytes | Runtime/Scripts/SubSystems/AnimatorManager/Utilities.cs:15-20 | the bit unpacking reads for bool i is bool i of the packing |
| Utilities.UnpackPack | Runtime/Scripts/SubSystems/AnimatorManager/Utilities.cs:7-21 | unpacking undoes packing |
| Utilities.ByteToBoolArrayNoAlloc | Runtime/Scripts/SubSystems/AnimatorManager/Utilities.cs:7-21 | every element of the array is overwritten with its bit, least-significant bit first; with fewer than one byte per started group of eight the elements the bytes cover are written, the rest are kept, and the call ends in the out-of-range read |
| TransformHider.OwningSlot | Runtime/Scripts/TransformHider/ITransformHider/SkinnedTransformHider.cs:201-220 | the chosen slot qualifies and no lower slot does |
| TransformHider.QualifyingWeight | Runtime/Scripts/TransformHider/ITransformHider/SkinnedTransformHider.cs:199-220 | the weight sum is 0 when no slot qualifies and positive when one does |
| TransformHider.VertexWeight | Runtime/Scripts/TransformHider/ITransformHider/SkinnedTransformHider.cs:226 | the stored weight lies in [0, 1] |
| TransformHider.ExclusionListsLockstep | Runtime/Scripts/TransformHider/ITransformHider/SkinnedTransformHider.cs:225-226 | an exclusion's two lists have equal lengths and each weight belongs to the vertex beside it |
| TransformHider.ExclusionIndices | Runtime/Scripts/TransformHider/ITransformHider/SkinnedTransformHider.cs:195-227 | an exclusion's indices ascend, lie below the vertex count, and list a vertex exactly when its target is this exclusion (so at most once, and in at most one exclusion) |
| TransformHider.VertexOwnership | Runtime/Scripts/TransformHider/ITransformHider/SkinnedTransformHider.cs:195-227 | a vertex has a target iff some slot names a flagged bone with weight above epsilon; the target is the exclusion of the lowest such slot; the weight is positive iff there is a target |
| TransformHider.TargetOfOwningBone | Runtime/Scripts/TransformHider/ITransformHider/SkinnedTransformHider.cs:222-223 | the exclusion looked up for a vertex is its target |
| TransformHider.FPRExclusionWrapper.Add | Runtime/Scripts/TransformHider/ITransformHider/SkinnedTransformHider.cs:225-226 | both lists grow by one entry |
| TransformHider.BonesWithExclusion | Runtime/Scripts/TransformHider/ITransformHider/SkinnedTransformHider.cs:183-189 | the flag array is `HasExclusion` |
| TransformHider.WeighVertex | Runtime/Scripts/TransformHider/ITransformHider/SkinnedTransformHider.cs:195-220 | the 3-down-to-0 overwriting picks the lowest qualifying slot's bone and sums all qualifying weights |
| TransformHider.VertexExclusion | Runtime/Scripts/TransformHider/ITransformHider/SkinnedTransformHider.cs:195-223 | the exclusion found for a vertex is its target and the weight its stored weight |
| TransformHider.RecordVertex | Runtime/Scripts/TransformHider/ITransformHider/SkinnedTransformHider.cs:225-226 | the vertex goes to its target's lists and every exclusion still holds its due entries |
| TransformHider.VisitVertex | Runtime/Scripts/TransformHider/ITransformHider/SkinnedTransformHider.cs:196-226 | visiting vertex i extends the recorded prefix by that vertex: every exclusion holds its due entries for the vertices up to and including i |
| TransformHider.RecordExclusions | Runtime/Scripts/TransformHider/ITransformHider/SkinnedTransformHider.cs:194-227 | after the second loop every exclusion holds, after its earlier entries, its due entries for all vertices |
| TransformHider.FindExclusionVertList | Runtime/Scripts/TransformHider/ITransformHider/SkinnedTransformHider.cs:171-234 | each exclusion's lists grow by exactly the vertices whose target it is, in vertex order, with their stored weights |
| TransformHider.BufferLayout | Runtime/Scripts/TransformHider/ITransformHider/SkinnedTransformHider.cs:52-54 | the stride lies in 0..10; it is 10 iff position, normal and tangent are all present, and 0 iff none is |
| TransformHider.ThreadGroups | Runtime/Scripts/TransformHider/ITransformHider/SkinnedTransformHider.cs:134-135 | the thread groups are the integer ceiling of vertexCount / 64: zero iff no vertices, otherwise enough groups of 64 and not one more |
| TransformHider.SkinnedTransformHider.constructor | Runtime/Scripts/TransformHider/ITransformHider/SkinnedTransformHider.cs:51-54 | the accumulated stride is `BufferLayout` |
| TransformHider.SubTask.constructor | Runtime/Scripts/TransformHider/ITransformHider/SkinnedTransformHider.cs:124-135 | the vertex count is the exclusion's index count and the thread groups are `ThreadGroups` of it |

## Left out

- Disk I/O and JSON: the profile file's content is an input, and a write is recorded as the last snapshot. The order of the saved profiles in the written file is not modelled, because it is a map here.
- `GetProfileDirectory` and the client-profile preference are a boolean input.
- The store class `ParameterAccess` is not part of this model's source files. It is modelled from its call sites. The value read for an unknown name, 0, is an assumption.
- The animator-side parameters are not modelled: the core parameters that `Apply_CoreParameters` writes, the values pulled back from the animator, lip-sync blend shapes and jaw muscles, and the human-pose handler. These are calls into engine objects; only the smoothing factor, the hand-layer weights and the emote cancel are kept.
- The editor repaint flag is not modelled, because it only drives the inspector.
- Floating point: floats are `real`. Single-precision rounding, NaN and overflow are not modelled.
- Single-precision addition order is not modelled: the summation order of the slot weights in `FindExclusionVertList` (slot 3 first) does not matter over reals.
- Hash codes (`GetHashCode` of pointers and type strings) are opaque integers, and collisions are not considered.
- Physics and transform math in `ExecuteStayTask` are not modelled: `ClosestPoint`, `InverseTransformPoint`, `lossyScale`. The three inverse-lerp fractions and the Euclidean length of the centred position are inputs.
- A pointer reading's length is an input tied to its fractions by its square (the `Reading` subset type), so no square root is taken in the model.
- The rigidbody is reduced to its two flags, and the collider to its shape, size and centre.
- The `Destroy` calls in the trigger's `Start` are not modelled: they remove the component when the trigger component is missing or the avatar is not local. The constructor models only the setup that follows them.
- The `default` branches that throw `ArgumentOutOfRangeException` in `ExecuteTask` and `ExecuteStayTask` are not modelled, because the update-method datatypes have no other cases.
- Stay tasks are identified by their position in the trigger's stay list. The same task object listed twice is two tasks here, while the source compares references.
- Pointer wrappers are compared by value, which stands in for reference identity.
- GPU work in `SkinnedTransformHider` is not modelled: compute buffers, `Dispatch`, `HideTransform`, `ShowTransform`, `Dispose`.
- TransformHider.FindExclusionVertList requires every bone-weight slot to index the renderer's bone list; the source throws an index exception otherwise.
- TransformHider.WeighVertex reads the per-bone flags as a sequence taken from the flag array once the first loop has filled it. The array is never written after that loop, so the values read are the same.
- Renderer bones are modelled as optional integers standing for transforms. A destroyed transform comparing equal to null is reduced to "absent".
- EmulatorRuntime.AASEmulatorRuntime.UpdateEmoteValuesFixedUpdate: "moving" is a non-zero axis, which equals a positive movement magnitude over reals. A float magnitude that underflows to 0 is not modelled.
- EmulatorRuntime.RoundToIntProperties: rounding of exact halves (to even) is defined but only its distance bound is stated.
- TriggerLogic.KeepPendingExact states how often each entry is kept, not their order. The order is kept because `KeepPending` is a filter, and `TaskCheckerPass` is proved equal to it.
- Profiles.AvatarProfileManager.LoadProfileDataFromDisk: a duplicate profile name in the file aborts the remaining additions and skips taking the selection, as the caught exception from `Dictionary.Add` does.
- Profiles.AvatarProfileManager.LoadProfileDataFromDisk: a null entry in the file's profile list, and a null default profile name, are not modelled; the entries are values and a missing name reads as the empty string.
- Profiles.RefreshAgreesWithSeed: `UpdateAASMenuEntries` reads a "-z" parameter into the third component of 2D entries. This is modelled as written; it reads 0 when that parameter is unknown.

## Findings

| source | as written | input that shows it | evidently intended | confidence | as-written member | corrected member |
|---|---|---|---|---|---|---|
| Runtime/Scripts/Wrappers/CVRAvatarTriggerWrapper.cs:108-112 | the allow-list check looks up the hash code of the pointer wrapper, while setup (`CVRAvatarTriggerWrapper.Setup.cs:76-80`) stores the hash codes of the referenced pointer components | a trigger whose allow-list references pointer component 5, entered by a wrapper with hash 7 around that component: refused | a referenced pointer is admitted | not executed | TriggerLogic.AllowListAsWrittenRejectsListedPointer | TriggerLogic.AllowListPriority |
| Runtime/Scripts/Wrappers/CVRAvatarTriggerWrapper.TaskManagment.cs:24-47 | when a cancel empties the pending list between two checker ticks, the coroutine leaves its loop without clearing its handle, so later starts are skipped | a 1 s delayed task is queued at t=0, the exit at t=0.5 cancels it, the checker resumes at t=0.6, a new 1 s task is queued at t=1: it never runs | every queued task runs once due | not executed | TriggerLogic.CheckerAsWrittenStrandsTasks | TriggerLogic.EventsKeepCoroutinesSound |
