# Faso framework core, modelled in Dafny

This project models the small amount of real logic in the Faso Unity gameplay
framework and proves properties of it:

- **Manager registries.** `GameInstance` holds the persistent managers and
  `GameflowManager` holds the managers of the current scene. Both answer a
  lookup by type with the first array entry whose runtime type is the queried
  type or, when `considerSubclass` is set, a strict subclass of it. A class is
  its inheritance chain (`Types.TypeId`): strict subclass is strict prefix.
  The `as T` slot getters are `Types.Cast`. `UIController.GetPanel` is the
  exact-type variant, and `ScenesInfo` maps scene names to build indices.
- **The `GameInstance` singleton and its scene-load state machine.** The
  `SceneLoadingRoutine` coroutine is a resumable step function (`SceneLoading`
  module). The `GameInstance` class updates its fields in place and is proved
  to follow those functions. Notifications and progress values are recorded as
  an event trace.
- **Possession.** `PlayerController` and `Character` are two classes holding
  references to each other. A shared log records their callbacks.
- **`UIPanel` visibility.** The panel's state is a `Panel` value with pure
  transition functions. The `UIPanel` class follows those functions field by
  field.
- **Self-registration.** `AutoRegisterManager` keeps a set of elements.
  `Registerable` adds itself on `Awake` and removes itself on `OnDestroy`.
- **The editor `RequireManagerChecker`.** Its nested scene walk is a method.
  That method is proved equal to a pure specification (`ScenePass`), and the
  specification's properties are proved as lemmas.

The C# static field `GameInstance.instance` is the `Roots.Statics` object.
Operations that read or write it take it as a parameter. Engine services
(coroutine scheduling, `LoadSceneAsync`, logging) are not modelled as code.
What they report (the status of an asynchronous load) becomes a parameter,
and what they print becomes a trace entry.

## Model

| member | source | states |
|---|---|---|
| Types.Cast | Runtime/GameflowManager.cs:82-111 | `o as U`, as in the slot getters and `GetManager<T>` (and in Registerable.cs:19 and PlayerController.cs:86): returns `o` exactly when its runtime type is `U` or a subclass of `U`, and null otherwise |
| Types.SubclassIsIrreflexive | Runtime/GameInstance.cs:149 | `IsSubclassOf` is strict: no type is a subclass of itself |
| Types.SubclassIsTransitive | Runtime/GameInstance.cs:149 | `IsSubclassOf` is transitive |
| Types.SubclassIsAsymmetric | Runtime/GameInstance.cs:149 | `IsSubclassOf` is asymmetric |
| ManagerRegistry.Lookup | Runtime/GameInstance.cs:148-153 | the `foreach`/early-`return` scan returns a hit iff some index holds the first matching entry, and that hit is the specification's first match |
| ManagerRegistry.ResolveIsFirstMatch | Runtime/GameflowManager.cs:121-125 | the lookup returns null iff no entry matches, and otherwise it returns the entry at the first matching index |
| ManagerRegistry.ResolveReturnsRelatedEntry | Runtime/GameInstance.cs:148-150 | a hit is an element of the array whose type is the query or a strict subclass of it; without `considerSubclass` its type is exactly the query |
| ManagerRegistry.EarlierSubclassWins | Runtime/GameflowManager.cs:121-123 | an earlier subclass entry is returned even when an exact-type entry comes later |
| ManagerRegistry.CastOfResolveKeepsResult | Runtime/GameflowManager.cs:108-111 | the `as T` applied to a lookup result never turns a hit into null |
| ManagerRegistry.ExactHitImpliesSubclassHit | Runtime/GameInstance.cs:149 | a query that hits with exact matching also hits with subclass matching, though possibly on an earlier entry |
| Roots.GameflowManager.GetManagerByType | Runtime/GameflowManager.cs:113-126 | the first manager of the queried type (or of a strict subclass when the flag is set), else null; the editor warning fires iff the query does not derive from `Manager`, and it never changes the result |
| Roots.GameflowManager.GetManager | Runtime/GameflowManager.cs:108-111 | forwards `considerSubclass`; the result is null or an element of `managers` of a type related to `T` |
| Roots.GameflowManager.GetPlayerController | Runtime/GameflowManager.cs:82-85 | returns the player-controller slot if its type is `T` or a subtype, otherwise null, and never any other object |
| Roots.GameflowManager.GetCameraController | Runtime/GameflowManager.cs:91-94 | the same for the camera-controller slot |
| Roots.GameflowManager.GetUIController | Runtime/GameflowManager.cs:100-103 | the same for the UI-controller slot |
| Roots.GameflowManager.Awake | Runtime/GameflowManager.cs:43-47 | the singleton's current gameflow manager becomes this one; only that field of the singleton changes |
| Roots.SceneSwitchRebindsGameflow | Runtime/GameflowManager.cs:43-47 | when two gameflow managers wake in turn, the last one is current and the scene-load state is untouched |
| Roots.GameInstance.constructor | Runtime/GameInstance.cs:17-30 | the field initialisers: no gameflow manager, idle load state, nothing hooked |
| Roots.GameInstance.Awake | Runtime/GameInstance.cs:58-65 | the first instance becomes the singleton; a later one requests its own destruction and leaves the singleton unchanged |
| Roots.GameInstance.Initialize | Runtime/GameInstance.cs:180-193 | registers as the singleton, hooks `sceneLoaded` and is kept across scene loads |
| Roots.GameInstance.OnDestroy | Runtime/GameInstance.cs:67-71 | clears the singleton only if it is this object; another object's destruction leaves it alone |
| Roots.DuplicateInstanceIsDiscarded | Runtime/GameInstance.cs:58-71 | after a second instance wakes and is destroyed, the first one is still the singleton and still hooked |
| Roots.GameInstance.LoadSceneInternal | Runtime/GameInstance.cs:195-203 | the new load state and the emitted events are those of `SceneLoading.Request` |
| Roots.GameInstance.OnLoadingScreenDisplayed | Runtime/GameInstance.cs:205-208 | starts a routine for `toLoadSceneName` that runs up to its first `yield`: the exit notifications, the load start, then the first progress value unless the load is already done |
| Roots.GameInstance.OnSceneExit | Runtime/GameInstance.cs:225-230 | the loop appends exactly one exit notification per persistent manager, in array order |
| Roots.GameInstance.OnSceneLoaded | Runtime/GameInstance.cs:217-222 | the loop appends exactly one loaded notification per persistent manager, in array order |
| Roots.GameInstance.ResumeRoutine | Runtime/GameInstance.cs:238-249 | resuming a suspended routine changes the state and emits events as `SceneLoading.Resume` says |
| Roots.GameInstance.OnNewSceneReady | Runtime/GameInstance.cs:210-214 | back to idle: the handle is cleared and the name is empty |
| Roots.CurrentGameflowManager | Runtime/GameInstance.cs:36-40 | the `GameflowManager` getter is null without a singleton, and otherwise the singleton's field |
| Roots.GetGameflowManager | Runtime/GameInstance.cs:81-84 | the current gameflow manager as `T`, or null |
| Roots.GetPlayerController | Runtime/GameInstance.cs:90-93 | null without a singleton or a gameflow manager; otherwise the gameflow manager's cast getter |
| Roots.GetCameraController | Runtime/GameInstance.cs:99-102 | the same null chain over the camera-controller getter |
| Roots.GetUIController | Runtime/GameInstance.cs:117-120 | the same null chain over the UI-controller getter |
| Roots.GetCharacter | Runtime/GameInstance.cs:108-111 | null when the singleton, the gameflow manager or the player controller is missing; otherwise the possessed character as `T` |
| Roots.GetPersistentManagerByType | Runtime/GameInstance.cs:138-154 | null and no warning without a singleton; otherwise the first-match lookup over the persistent managers, with the warning iff the query does not derive from `PersistentManager` |
| Roots.GetPersistentManager | Runtime/GameInstance.cs:125-128 | null without a singleton; otherwise the lookup with the caller's flag, and the cast keeps every hit |
| Roots.GetManagerAsWritten | Runtime/GameInstance.cs:133-136 | null without a singleton or a gameflow manager; otherwise the scene lookup with subclass matching always on, whatever `considerSubclass` says |
| Roots.GetManager | Runtime/GameInstance.cs:133-136 | the same null chain, forwarding `considerSubclass`; with the flag off, a hit has exactly the queried type |
| Roots.IgnoredFlagReturnsSubclass | Runtime/GameInstance.cs:135 | a registry holding only a strict subclass of the query: subclass matching returns that entry and exact matching returns null |
| Roots.LoadScene | Runtime/GameInstance.cs:156-162 | forwards to the singleton's `LoadSceneInternal`; the singleton must exist |
| Roots.LoadSceneByIndex | Runtime/GameInstance.cs:164-169 | loads the name stored at the given build index, which must be in range |
| SceneLoading.ExitNotifications | Runtime/GameInstance.cs:225-230 | one exit notification per manager, position by position |
| SceneLoading.LoadedNotifications | Runtime/GameInstance.cs:217-222 | one loaded notification per manager, position by position |
| SceneLoading.ExitNotificationsOncePerEntry | Runtime/GameInstance.cs:228-229 | each manager gets as many exit notifications as it has entries in the array |
| SceneLoading.LoadedNotificationsOncePerEntry | Runtime/GameInstance.cs:220-221 | each manager gets as many loaded notifications as it has entries in the array |
| SceneLoading.Request | Runtime/GameInstance.cs:195-208 | while a scene is loading, nothing changes and nothing is emitted; when idle, the name is recorded, a routine is added and exit notifications, load start and first poll are emitted |
| SceneLoading.RequestWhileLoadingIsIgnored | Runtime/GameInstance.cs:197 | a request while `toLoadSceneName` is non-empty is a no-op |
| SceneLoading.PollingRoutineRunsToIdle | Runtime/GameInstance.cs:238-249 | a polling routine emits one raw progress value per not-done check and nothing for the done check; it waits one more frame, emits full progress and returns to idle |
| SceneLoading.LoadFromIdleTrace | Runtime/GameInstance.cs:195-250 | a load from idle ends idle, and its events are exactly the exit notifications, the load start, every not-done progress value and then progress 1; a load already done at its first check skips the polling loop and emits no raw progress at all |
| SceneLoading.DoneAtFirstCheckTrace | Runtime/GameInstance.cs:232-250 | a load already done at the routine's first check never enters the polling loop: after one extra frame the state is idle and the events are the exit notifications, the load start and progress 1 |
| SceneLoading.TransitionTraceOrder | Runtime/GameInstance.cs:232-250 | in that trace every exit notification precedes the load start, progress 1 comes last, and no entry notification appears |
| SceneLoading.SingleFlightPreserved | Runtime/GameInstance.cs:52 | with non-empty names, requests and resumes keep at most one routine in flight, running exactly while loading |
| SceneLoading.EmptyNameAdmitsSecondLoad | Runtime/GameInstance.cs:52 | loading the empty name leaves the guard open, so a second request starts a second routine |
| SceneLoading.NotDone | Runtime/GameInstance.cs:238 | the load statuses of the not-done checks, position by position |
| SceneLoading.ProgressEvents | Runtime/GameInstance.cs:240 | the progress values forwarded as they are, position by position |
| Scenes.IndexOf | Runtime/ScenesInfo.cs:26 | `Array.IndexOf`: -1 iff the name is absent; otherwise an index holding the name with no earlier occurrence |
| Scenes.ScenesInfo.GetScene | Runtime/ScenesInfo.cs:24-27 | the linear search returns the first index of the name, or -1 exactly when it is absent |
| Scenes.ScenesInfo.GetSceneName | Runtime/ScenesInfo.cs:29-34 | requires an index in range; returns the name at that index, and looking it up gives that index or an earlier one |
| Scenes.IndexOfNameAtMost | Runtime/ScenesInfo.cs:24-34 | `GetScene(GetSceneName(i)) <= i`, with equality when the names are distinct |
| Scenes.FoundIndexReadsBackName | Runtime/ScenesInfo.cs:24-34 | a name that is found reads back unchanged through its index |
| Scenes.ScenesInfo.constructor | Runtime/ScenesInfo.cs:19-22 | stores the names |
| UIControllers.UIController.GetPanel | Runtime/UIController.cs:27-36 | the earliest panel whose runtime type is exactly `T` (subclasses never match), an element of `panels`, and null iff no panel has that exact type |
| UIControllers.UIController.constructor | Runtime/UIController.cs:7-8 | stores the panel array |
| Possession.Character.OnPossessed | Runtime/Character.cs:57-60 | overwrites `controlledBy` with the caller, whatever it was, and logs the callback |
| Possession.Character.OnUnpossessed | Runtime/Character.cs:65-70 | logs the callback, logs a failed assertion when the caller is not the recorded controller, and clears `controlledBy` anyway |
| Possession.PlayerController.Possess | Runtime/PlayerController.cs:57-67 | requires a character; the previous character, if any, is unpossessed first (its callback precedes `OnPossessed`) and its link is cleared, and then both sides point at each other |
| Possession.PlayerController.Unpossess | Runtime/PlayerController.cs:72-78 | calls `OnUnpossessed` only when a character is bound, and clears both links; with no character nothing is logged |
| Possession.PlayerController.Start | Runtime/PlayerController.cs:41-47 | with a start character: the same links and callback log as `Possess` of it; without one: the controlled character, its link back and the log are unchanged |
| Possession.PlayerController.SetControlledCharacter | Runtime/PlayerController.cs:34 | assigning the property is `Possess(value)`: the new character is linked, a different previous character loses its link back, and the callback log is that of `Possess`; null is not allowed |
| Possession.PlayerController.GetControlledCharacter | Runtime/PlayerController.cs:84-87 | the controlled character if its type is `T` or a subtype, otherwise null |
| Possession.PlayerController.constructor | Runtime/PlayerController.cs:12-15 | a controller starts with no controlled character |
| Possession.Character.constructor | Runtime/Character.cs:8 | a character starts with no controller |
| Possession.HandOver | Runtime/PlayerController.cs:57-78 | possessing a second character unpossesses the first exactly once with no failed assertion; the first ends unlinked and the second linked |
| Possession.SharedCharacterFailsAssertion | Runtime/Character.cs:65-70 | two controllers possessing one character is not prevented; the first controller's `Unpossess` then fails the assertion and breaks the second one's link |
| UIPanels.AfterSetForwardInput | Runtime/UIPanel.cs:179-193 | `forwardInput` ends equal to the requested value and the configuration, canvas and group are kept; the current value leaves the subscriptions alone and logs one warning, a new value logs nothing |
| UIPanels.AfterOnShow | Runtime/UIPanel.cs:145-160 | enables the canvas and restores the saved flags into the group, if there is one; with `forwardInputsOnShow` turns forwarding on (subscribing once when it was off, warning when it was already on), otherwise leaves forwarding and subscriptions alone; an already-on forwarding keeps its subscriptions; raises `onShow` last |
| UIPanels.AfterOnHide | Runtime/UIPanel.cs:162-177 | disables the canvas and puts the group, if there is one, into the hidden configuration (not interactable, no raycasts, ignoring parent groups); with `forwardInputsOnShow` turns forwarding off (unsubscribing when it was on, warning when it was already off), otherwise leaves forwarding and subscriptions alone; an already-off forwarding keeps its subscriptions; raises `onHide` last |
| UIPanels.AfterShow | Runtime/UIPanel.cs:133-137 | ends visible, and does nothing when already visible |
| UIPanels.AfterHide | Runtime/UIPanel.cs:139-143 | ends hidden, and does nothing when already hidden |
| UIPanels.AfterAwake | Runtime/UIPanel.cs:92-127 | the canvas is enabled iff `enabledOnAwake`; the group's flags are saved; a panel that starts hidden has its group in the hidden configuration |
| UIPanels.AwakeEstablishesInvariant | Runtime/UIPanel.cs:100-126 | after `Awake` the panel is coherent, and forwarding is on iff `enabledOnAwake && forwardInputsOnShow` |
| UIPanels.StepKeepsInvariant | Runtime/UIPanel.cs:133-193 | `Show`, `Hide` and `SetForwardInput` keep the panel coherent: the handler is subscribed iff forwarding, and the group matches visibility; the saved flags are never rewritten |
| UIPanels.OperationsKeepInvariant | Runtime/UIPanel.cs:133-193 | any sequence of those operations keeps the panel coherent and keeps the Awake-time flags |
| UIPanels.ShowHideIdempotent | Runtime/UIPanel.cs:133-143 | `Show` twice is `Show` once, and `Hide` twice is `Hide` once |
| UIPanels.HideThenShowRestoresSavedFlags | Runtime/UIPanel.cs:100-105 | hiding then showing a panel with a group restores the flags saved at `Awake` |
| UIPanels.ShowHideStepIsQuiet | Runtime/UIPanel.cs:156-157 | when forwarding follows visibility, one `Show` or `Hide` keeps it so and raises no same-value warning |
| UIPanels.ShowHideNeverWarns | Runtime/UIPanel.cs:173-183 | any sequence of `Show`/`Hide` from such a state never reaches the "should not get here" warning |
| UIPanels.UIPanel.constructor | Runtime/UIPanel.cs:17-30 | the field initialisers and the configured components |
| UIPanels.UIPanel.Awake | Runtime/UIPanel.cs:92-127 | the fields after `Awake` are those of `AfterAwake` |
| UIPanels.UIPanel.Show | Runtime/UIPanel.cs:133-137 | the fields after `Show` are those of `AfterShow` |
| UIPanels.UIPanel.Hide | Runtime/UIPanel.cs:139-143 | the fields after `Hide` are those of `AfterHide` |
| UIPanels.UIPanel.OnShow | Runtime/UIPanel.cs:145-160 | the fields after `OnShow` are those of `AfterOnShow` |
| UIPanels.UIPanel.OnHide | Runtime/UIPanel.cs:162-177 | the fields after `OnHide` are those of `AfterOnHide` |
| UIPanels.UIPanel.SetForwardInput | Runtime/UIPanel.cs:179-193 | the fields after `SetForwardInput` are those of `AfterSetForwardInput`; unsubscribing an absent handler does nothing |
| Registration.AutoRegisterManager.constructor | Runtime/AutoRegisterManager.cs:9 | the set starts empty |
| Registration.AutoRegisterManager.RegisterElement | Runtime/AutoRegisterManager.cs:23-26 | the element is added, and every other element's membership is unchanged |
| Registration.AutoRegisterManager.UnregisterElement | Runtime/AutoRegisterManager.cs:28-31 | the element is removed, removing an absent one is a no-op, and the rest is unchanged |
| Registration.RegisterRoundTrip | Runtime/AutoRegisterManager.cs:23-31 | registering then unregistering an absent element restores the set |
| Registration.RegisterIsIdempotent | Runtime/AutoRegisterManager.cs:25 | registering an element twice is the same as registering it once |
| Registration.Registerable.constructor | Runtime/Registerable.cs:5 | a component with its element type |
| Registration.Registerable.AsElement | Runtime/Registerable.cs:19 | `this as ElementType` is the component itself when its type is `ElementType` or a subtype, and null otherwise |
| Registration.Registerable.Awake | Runtime/Registerable.cs:17-20 | requires the resolved manager (the call is not null-conditional) and adds the component's element to its set |
| Registration.Registerable.OnDestroy | Runtime/Registerable.cs:22-25 | removes the element, and does nothing when no manager is resolved |
| Registration.LifetimeLeavesNoTrace | Runtime/Registerable.cs:17-25 | with a present manager, `Awake` then `OnDestroy` leaves the set without the component's element; for an element not already registered, that is the set as it was |
| Registration.MismatchedElementsRegisterNull | Runtime/Registerable.cs:19 | components that are not of their element type register null, and two of them share that one entry |
| Registration.SharedNullEntryRemovedByOne | Runtime/Registerable.cs:17-25 | of two mismatched components, destroying one removes the shared null entry while the other is still alive |
| RequireManagerChecker.SlotList | Runtime/Attributes/RequirePersistentManagerAttribute.cs:7-13 | an attribute carries exactly five optional required types |
| RequireManagerChecker.Snapshot | Editor/RequireManagerChecker.cs:93-135 | what the checker reads of the statics: no persistent registry iff no singleton, no scene registry iff no gameflow manager, and no singleton implies no gameflow manager |
| RequireManagerChecker.SlotDiagnostics | Editor/RequireManagerChecker.cs:112-126 | a null slot says nothing; a type not deriving from the base type gets one warning and no lookup; otherwise the missing-reference warning appears iff no registry entry is of that type or derives from it (the same for the persistent overload at lines 154-168) |
| RequireManagerChecker.AttributeCheck | Editor/RequireManagerChecker.cs:86-110 | the pass goes on unless the type carries the attribute while the registry's owner is missing, which is reported once; a type without the attribute yields nothing (the same for the persistent overload at lines 128-152) |
| RequireManagerChecker.CheckAttributes | Editor/RequireManagerChecker.cs:128-152 | the loop over the attributes computes exactly `AttributeCheck` |
| RequireManagerChecker.CheckSlots | Editor/RequireManagerChecker.cs:141-148 | the five slot checks of one attribute, in field order |
| RequireManagerChecker.SatisfiedSlotsAreSilent | Editor/RequireManagerChecker.cs:154-168 | slots whose types all derive from the base type and are provided produce no diagnostic |
| RequireManagerChecker.SatisfiedRequirementsAreSilent | Editor/RequireManagerChecker.cs:86-126 | attributes whose requirements are all met produce no diagnostic |
| RequireManagerChecker.MissingSlotWarningsAreGenuine | Editor/RequireManagerChecker.cs:165-166 | every missing-reference warning of a slot list names a well-derived type that no entry provides |
| RequireManagerChecker.MissingWarningsAreGenuine | Editor/RequireManagerChecker.cs:123-124 | the same for a whole attribute list |
| RequireManagerChecker.LayerDiagnostics | Editor/RequireManagerChecker.cs:58-66 | no requirement or the right layer says nothing; a wrong layer is reported last, preceded by an unknown-name error exactly when the layer index is -1 |
| RequireManagerChecker.CheckRequireManagerAttributeInScene | Editor/RequireManagerChecker.cs:39-84 | the nested loops, with their early `return`, emit exactly the diagnostics of the specification `ScenePass` |
| RequireManagerChecker.AbortedVisitIsFinal | Editor/RequireManagerChecker.cs:78-79 | once the pass has returned, the rest of the root is not visited |
| RequireManagerChecker.AbortedWalkIsFinal | Editor/RequireManagerChecker.cs:78-79 | once the pass has returned, later roots are not visited |
| RequireManagerChecker.FinishAborted | Editor/RequireManagerChecker.cs:78-79 | an aborted pass is the result of the whole walk |
| RequireManagerChecker.OnSceneLoaded | Editor/RequireManagerChecker.cs:21-34 | the loaded scene is always checked; the persistent scene is checked only when the singleton exists, and otherwise one warning is added |
| RequireManagerChecker.VisitComponentKeepsCheckedTypesDistinct | Editor/RequireManagerChecker.cs:68-72 | one component adds its type to `checkedTypes` at most once, and only a new MonoBehaviour type |
| RequireManagerChecker.VisitAllKeepsCheckedTypesDistinct | Editor/RequireManagerChecker.cs:48-82 | the inner loop keeps `checkedTypes` free of duplicates and MonoBehaviour-only |
| RequireManagerChecker.WalkKeepsCheckedTypesDistinct | Editor/RequireManagerChecker.cs:46-83 | the outer loop keeps `checkedTypes` free of duplicates and MonoBehaviour-only |
| RequireManagerChecker.EachTypeCheckedAtMostOnce | Editor/RequireManagerChecker.cs:41 | in a scene pass the set of checked types holds each concrete MonoBehaviour type at most once |
| RequireManagerChecker.LayerOnlyVisit | Editor/RequireManagerChecker.cs:58-66 | a MonoBehaviour that has no manager requirement, or whose type is already checked, contributes exactly its layer diagnostics, never aborts the pass and keeps every checked type |
| RequireManagerChecker.LayerCheckedOnEveryInstance | Editor/RequireManagerChecker.cs:58-66 | the layer is checked on every instance: over components whose types are already checked or have no manager requirement, including further instances of types with requirements, each contributes its own layer diagnostics and the pass does not abort |
| RequireManagerChecker.MissingScriptsAreSkipped | Editor/RequireManagerChecker.cs:50-54 | each missing script adds one error naming its root, and the pass neither aborts nor marks a type checked |
| RequireManagerChecker.MissingSingletonAborts | Editor/RequireManagerChecker.cs:78-79 | a first-seen type requiring persistent managers without a singleton aborts after one report, and the scene-manager check of that type is skipped |
| RequireManagerChecker.CheckedTypeNeverAborts | Editor/RequireManagerChecker.cs:70 | a type already checked is not checked again: a later instance adds its layer diagnostics and no attribute diagnostic, and cannot abort the pass |

## Left out

- Runtime/Controller.cs and `UIPanel.ForwardInput_Internal`: the input-system subscription and the reflection-based dispatch of `"On" + actionName` are out of scope. A panel's subscription to the UI controller's input source is a counter.
- Runtime/CameraController.cs: a camera controller is an opaque `Obj` handle.
- Runtime/Manager.cs and Runtime/PersistentManager.cs: their lifecycle hooks are empty. Managers are opaque handles, and their `OnSceneExit`/`OnSceneLoaded` calls are trace events.
- Editor/SceneSerializer.cs and the editor-only reference refresh helpers (`RefreshManagerReferences`, `RefreshFrameworkReferences`, `GetComponentInScene`, `GetComponentsInScene`): this is editor glue over the asset database. The arrays and slots they fill are constructor parameters.
- Attribute reflection in the editor checker: `GetCustomAttribute(s)` on `monoBehaviour.GetType()` and on `MonoScript.GetClass()` (Editor/RequireManagerChecker.cs:59, 88, 130) is reduced to the parameter `attrsOf`, which gives each type its layer, manager and persistent-manager attributes. Attribute inheritance and several attributes on one class are whatever `attrsOf` says.
- `RequireLayerAttribute`: `LayerMask.NameToLayer` is an engine call. The resolved layer index is part of the attribute's data (-1 for an unknown name), and the layer's display name in the message is not modelled.
- The editor fallback of the `ControlledCharacter` getter (it returns `startControlledCharacter` while nothing is possessed, in the editor only): `GetControlledCharacter` reads `controlledCharacter`, as a player build does.
- Engine services: coroutine scheduling, `LoadSceneAsync`, `Instantiate`, `DontDestroyOnLoad`, `Destroy`, `Quit`, `transform.SetParent` and `Debug.Log`. The status of a load is a parameter. `DontDestroyOnLoad`, the `sceneLoaded` subscription and a requested `Destroy` are boolean fields. `Instantiate`'s copy of the `ScenesInfo` asset is not modelled because the copy holds the same names.
- The `GameInstance.GameObject` static property (Runtime/GameInstance.cs:44) is null-guarded and returns null without a singleton; the model reads `Statics.instance` for it, as `RequireManagerChecker.Snapshot` does. The `ScenesInfo` property (line 42) and the `OnSceneLoading` event's add/remove accessors (lines 48-49) dereference `instance` unguarded and fault without a singleton; they are not modelled, nor is that fault. Every published progress value is recorded in the trace, whether or not a handler is subscribed.
- Floating-point progress: progress values are `real`s forwarded unchanged. The only claim about them is that the last one is the forced `1`.
- `UIPanel.Awake` reads `GameInstance.GameflowManager.UIController` without a null check, and `SetForwardInput` dereferences that controller. Those faults are not modelled. The UI controller reference and the alpha property play no part in the visibility state.
- `Registration.Registerable.Awake`, `Registration.Registerable.OnDestroy`: the manager is passed in rather than resolved through `GameInstance.GetManager<ManagerType>()`. The resolution is `Roots.GetManager`.
- `ScenesInfo.sceneNames` is never null in the model. A null array would fault in `Array.IndexOf` and in the indexing.
- `UIPanel.Awake` calls `SetForwardInput` through the `ForwardInput` property. The model calls it directly, which changes nothing.
- `Roots.GameflowManager.Awake` requires the singleton to exist. The `GameInstance.GameflowManager` setter (Runtime/GameInstance.cs:39) dereferences `instance` without the null check its getter has, so a scene opened without a `GameInstance` faults at Runtime/GameflowManager.cs:46. That fault is not modelled.
- Manager, persistent-manager and panel entries are `Obj` values and cannot be null. A null entry in those arrays faults in the source at Runtime/GameInstance.cs:149, 221 and 229, Runtime/GameflowManager.cs:122 and Runtime/UIController.cs:31. `ManagerRegistry.Lookup`, `Roots.GameInstance.OnSceneExit`, `Roots.GameInstance.OnSceneLoaded` and `UIControllers.UIController.GetPanel` do not model that fault.
- Roots.GameInstance.Initialize: assumes the `scenesInfo` asset is assigned (the field is non-nullable). With no asset, Runtime/GameInstance.cs:182 has already made the object the singleton, the `Debug.Assert` at line 185 only logs, and `Instantiate` at line 186 faults. Lines 189-192 then never run, leaving a singleton that is neither hooked to `sceneLoaded` nor persistent. `Initialize` and `Roots.GameInstance.Awake` instead always ensure both, so this partial initialisation is not modelled.
- A failed `LoadSceneAsync` is not modelled: `SceneLoading.AsyncStatus` always describes a real load. For a scene outside the build the engine returns null, and the routine then faults at Runtime/GameInstance.cs:238. By then the exit notifications and `LoadStarted` have been emitted, and `toLoadSceneName` stays set, so every later `LoadScene` is ignored.
- RequireManagerChecker.EachTypeCheckedAtMostOnce: states only that the checked types are distinct. That a type's dependency attributes are reported once follows from `CheckedTypeNeverAborts` and `LayerCheckedOnEveryInstance`, one visit at a time. No single lemma counts the attribute diagnostics per type over a whole pass.
- The engine decides when a suspended coroutine resumes. `SceneLoading.Drive` resumes the oldest routine once per status, and `Roots.GameInstance.ResumeRoutine` resumes any chosen routine.

Behaviour one might expect that the code does not have:

- Nothing prevents two controllers from possessing one character. `Character.OnUnpossessed`'s `Debug.Assert` only reports, and execution goes on (`Possession.SharedCharacterFailsAssertion`).
- Progress is forwarded raw. Nothing makes it monotonic.
- Entry notifications come from the engine's `sceneLoaded` hook (`Roots.GameInstance.OnSceneLoaded`), not from the loading routine.
- A load of the empty scene name never closes the guard, so a second request is accepted while the first routine is still suspended (`SceneLoading.EmptyNameAdmitsSecondLoad`). The empty name is never a build scene, so in the program the first routine faults after `LoadStarted` (see the failed `LoadSceneAsync` line above). The model treats every load as real and lets both routines run on.
- `GameInstance.OnDestroy` does not remove the `sceneLoaded` hook, and `GameflowManager` never clears itself from the singleton when its scene unloads.

## Findings

| source | as written | input that shows it | evidently intended | confidence | as-written member | corrected member |
|---|---|---|---|---|---|---|
| Runtime/GameInstance.cs:133-136 | `GetManager<T>(bool considerSubclass = true)` calls `instance.gameflowMgr.GetManager<T>()`, so the argument is dropped and subclass matching is always on | one scene manager whose type is a strict subclass of `T`, queried with `considerSubclass = false`: it is returned, although exact matching finds nothing (`Roots.IgnoredFlagReturnsSubclass`) | forward the flag, as `GetPersistentManager<T>` does at line 127 | high; not executed | Roots.GetManagerAsWritten | Roots.GetManager |
