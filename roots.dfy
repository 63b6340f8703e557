/**
 * The two roots of the framework: the persistent `GameInstance` singleton,
 * which owns the persistent managers and the scene-load state, and the
 * per-scene `GameflowManager`, which owns the scene managers and the
 * player, camera and UI controllers. They live in one module because each
 * scene's `GameflowManager` writes itself into the singleton's state.
 *
 * The C# statics (`GameInstance.instance` and the static accessors) are an
 * explicit `Statics` object passed to the operations that use them.
 */
module Roots {
  import opened Types
  import opened SceneLoading
  import ManagerRegistry
  import Possession
  import UIControllers
  import Scenes

  class GameflowManager {
    const ty: TypeId
    const playerController: Possession.PlayerController?
    const cameraController: Option<Obj>
    const uiController: UIControllers.UIController?
    const managers: seq<Obj>

    constructor (ty: TypeId, playerController: Possession.PlayerController?, cameraController: Option<Obj>,
                 uiController: UIControllers.UIController?, managers: seq<Obj>)
      ensures this.ty == ty && this.playerController == playerController && this.cameraController == cameraController
      ensures this.uiController == uiController && this.managers == managers
    {
      this.ty := ty;
      this.playerController := playerController;
      this.cameraController := cameraController;
      this.uiController := uiController;
      this.managers := managers;
    }

    /**
     * `Awake`: becomes the singleton's current gameflow manager, replacing the
     * previous scene's one. The setter dereferences the singleton, so one
     * must exist.
     */
    method Awake(statics: Statics)
      requires statics.instance != null
      modifies statics.instance`gameflowMgr
      ensures statics.instance.gameflowMgr == this
    {
      statics.instance.gameflowMgr := this;
    }

    /**
     * `GetManager(Type, bool)`: the first scene manager of the queried type
     * (or of a strict subclass of it, when `considerSubclass`). `warned` is
     * the editor warning for a query that does not derive from `Manager`; the
     * lookup runs anyway.
     */
    method GetManagerByType(managerType: TypeId, considerSubclass: bool) returns (r: Option<Obj>, warned: bool)
      ensures warned <==> !IsSubclassOf(managerType, ManagerType)
      ensures r == ManagerRegistry.Resolve(managers, managerType, considerSubclass)
      ensures r.Some? ==> r.value in managers && IsA(r.value.ty, managerType)
      ensures r.None? <==> forall i :: 0 <= i < |managers| ==> !ManagerRegistry.Matches(managers[i].ty, managerType, considerSubclass)
    {
      warned := !IsSubclassOf(managerType, ManagerType);
      r := ManagerRegistry.Lookup(managers, managerType, considerSubclass);
      ManagerRegistry.ResolveIsFirstMatch(managers, managerType, considerSubclass);
      if r.Some? {
        ManagerRegistry.ResolveReturnsRelatedEntry(managers, managerType, considerSubclass);
      }
    }

    /** `GetManager<T>(bool)`: the by-type lookup cast to `T`; the cast never drops a hit. */
    method GetManager(t: TypeId, considerSubclass: bool) returns (r: Option<Obj>)
      ensures r == ManagerRegistry.Resolve(managers, t, considerSubclass)
      ensures r.Some? ==> r.value in managers && IsA(r.value.ty, t)
    {
      var found, _ := GetManagerByType(t, considerSubclass);
      ManagerRegistry.CastOfResolveKeepsResult(managers, t, considerSubclass);
      r := Cast(found, t);
    }

    /** `GetPlayerController<T>`: the player controller as `T`, or null. */
    function GetPlayerController(t: TypeId): (r: Possession.PlayerController?)
      ensures r != null ==> r == playerController && IsA(r.ty, t)
      ensures playerController != null && IsA(playerController.ty, t) ==> r == playerController
    {
      if playerController != null && IsA(playerController.ty, t) then playerController else null
    }

    /** `GetCameraController<T>`: the camera controller as `T`, or null. */
    function GetCameraController(t: TypeId): (r: Option<Obj>)
      ensures r.Some? ==> r == cameraController && IsA(r.value.ty, t)
      ensures cameraController.Some? && IsA(cameraController.value.ty, t) ==> r == cameraController
    {
      Cast(cameraController, t)
    }

    /** `GetUIController<T>`: the UI controller as `T`, or null. */
    function GetUIController(t: TypeId): (r: UIControllers.UIController?)
      ensures r != null ==> r == uiController && IsA(r.ty, t)
      ensures uiController != null && IsA(uiController.ty, t) ==> r == uiController
    {
      if uiController != null && IsA(uiController.ty, t) then uiController else null
    }
  }

  class GameInstance {
    const managers: seq<Obj>
    const scenesInfo: Scenes.ScenesInfo
    var gameflowMgr: GameflowManager?
    var toLoadSceneName: string
    var sceneLoading: bool
    var routines: seq<Routine>
    /** Notifications and progress values published so far, in order. */
    var events: seq<Event>
    /** `OnSceneLoaded` is subscribed to the engine's `sceneLoaded` event. */
    var sceneLoadedHooked: bool
    /** `DontDestroyOnLoad` was applied. */
    var persistent: bool
    /** `Destroy(gameObject)` was requested. */
    var destroyRequested: bool

    constructor (managers: seq<Obj>, scenesInfo: Scenes.ScenesInfo)
      ensures this.managers == managers && this.scenesInfo == scenesInfo
      ensures gameflowMgr == null && LoadState() == Idle && events == []
      ensures !sceneLoadedHooked && !persistent && !destroyRequested
    {
      this.managers := managers;
      this.scenesInfo := scenesInfo;
      gameflowMgr := null;
      toLoadSceneName := "";
      sceneLoading := false;
      routines := [];
      events := [];
      sceneLoadedHooked := false;
      persistent := false;
      destroyRequested := false;
    }

    /** The scene-load state held in the fields. */
    function LoadState(): Loader
      reads this
    {
      Loader(toLoadSceneName, sceneLoading, routines)
    }

    /**
     * `Awake`: the first instance becomes the singleton; any later one asks
     * to be destroyed and leaves the singleton alone.
     */
    method Awake(statics: Statics)
      modifies statics, this
      ensures old(statics.instance) == null ==>
                statics.instance == this && sceneLoadedHooked && persistent && destroyRequested == old(destroyRequested)
      ensures old(statics.instance) != null ==>
                statics.instance == old(statics.instance) && destroyRequested
                && sceneLoadedHooked == old(sceneLoadedHooked) && persistent == old(persistent)
      ensures gameflowMgr == old(gameflowMgr) && LoadState() == old(LoadState()) && events == old(events)
    {
      if statics.instance == null {
        Initialize(statics);
      } else {
        destroyRequested := true;
      }
    }

    /** `Initialize`: registers as the singleton, hooks `sceneLoaded` and survives scene changes. */
    method Initialize(statics: Statics)
      modifies statics, this
      ensures statics.instance == this && sceneLoadedHooked && persistent
      ensures gameflowMgr == old(gameflowMgr) && LoadState() == old(LoadState()) && events == old(events)
      ensures destroyRequested == old(destroyRequested)
    {
      statics.instance := this;
      sceneLoadedHooked := true;
      persistent := true;
    }

    /** `OnDestroy`: clears the singleton only if it is this instance; the `sceneLoaded` hook stays. */
    method OnDestroy(statics: Statics)
      modifies statics
      ensures old(statics.instance) == this ==> statics.instance == null
      ensures old(statics.instance) != this ==> statics.instance == old(statics.instance)
    {
      if statics.instance == this {
        statics.instance := null;
      }
    }

    /**
     * `LoadSceneInternal`: ignored while a scene is loading; otherwise records
     * the name and starts the loading routine, which runs up to its first
     * `yield` (`first` is the load's status there).
     */
    method LoadSceneInternal(sceneName: string, first: AsyncStatus)
      modifies this`toLoadSceneName, this`sceneLoading, this`routines, this`events
      ensures LoadState() == Request(managers, old(LoadState()), sceneName, first).0
      ensures events == old(events) + Request(managers, old(LoadState()), sceneName, first).1
    {
      if |toLoadSceneName| == 0 {
        toLoadSceneName := sceneName;
        OnLoadingScreenDisplayed(first);
      }
    }

    /** `OnLoadingScreenDisplayed`: starts `SceneLoadingRoutine(toLoadSceneName)`. */
    method OnLoadingScreenDisplayed(first: AsyncStatus)
      modifies this`sceneLoading, this`routines, this`events
      ensures sceneLoading
      ensures routines == old(routines) + [Routine(toLoadSceneName, PcAfterPoll(first))]
      ensures events == old(events) + ExitNotifications(managers) + [LoadStarted(toLoadSceneName)] + Poll(first)
    {
      OnSceneExit();
      events := events + [LoadStarted(toLoadSceneName)];
      var pc := Polling;
      if !first.isDone {
        events := events + [ProgressChanged(first.progress)];
      } else {
        pc := AfterLastFrame;
      }
      routines := routines + [Routine(toLoadSceneName, pc)];
      sceneLoading := true;
    }

    /** `OnSceneExit`: notifies every persistent manager, in array order. */
    method OnSceneExit()
      modifies this`events
      ensures events == old(events) + ExitNotifications(managers)
    {
      var i := 0;
      while i < |managers|
        invariant 0 <= i <= |managers|
        invariant |events| == |old(events)| + i
        invariant events[..|old(events)|] == old(events)
        invariant forall k :: 0 <= k < i ==> events[|old(events)| + k] == SceneExit(managers[k])
      {
        events := events + [SceneExit(managers[i])];
        i := i + 1;
      }
    }

    /** `OnSceneLoaded`: the engine's `sceneLoaded` hook notifies every persistent manager, in array order. */
    method OnSceneLoaded(scene: string)
      modifies this`events
      ensures events == old(events) + LoadedNotifications(managers, scene)
    {
      var i := 0;
      while i < |managers|
        invariant 0 <= i <= |managers|
        invariant |events| == |old(events)| + i
        invariant events[..|old(events)|] == old(events)
        invariant forall k :: 0 <= k < i ==> events[|old(events)| + k] == SceneLoaded(managers[k], scene)
      {
        events := events + [SceneLoaded(managers[i], scene)];
        i := i + 1;
      }
    }

    /** The engine resumes suspended routine `i` and its load reports `status`. */
    method ResumeRoutine(i: nat, status: AsyncStatus)
      requires i < |routines|
      modifies this`toLoadSceneName, this`sceneLoading, this`routines, this`events
      ensures LoadState() == Resume(old(LoadState()), i, status).0
      ensures events == old(events) + Resume(old(LoadState()), i, status).1
    {
      var routine := routines[i];
      match routine.pc
      case Polling =>
        if status.isDone {
          routines := routines[i := routine.(pc := AfterLastFrame)];
        } else {
          events := events + [ProgressChanged(status.progress)];
        }
      case AfterLastFrame =>
        routines := routines[..i] + routines[i + 1..];
        events := events + [ProgressChanged(FullProgress)];
        OnNewSceneReady();
    }

    /** `OnNewSceneReady`: back to idle. */
    method OnNewSceneReady()
      modifies this`toLoadSceneName, this`sceneLoading
      ensures LoadState() == NewSceneReady(old(LoadState()))
    {
      sceneLoading := false;
      toLoadSceneName := "";
    }
  }

  /** The C# static field `GameInstance.instance`. */
  class Statics {
    var instance: GameInstance?

    constructor ()
      ensures instance == null
    {
      instance := null;
    }
  }

  /** The `GameInstance.GameflowManager` getter: null without a singleton. */
  function CurrentGameflowManager(statics: Statics): (r: GameflowManager?)
    reads statics, statics.instance
    ensures statics.instance == null ==> r == null
    ensures statics.instance != null ==> r == statics.instance.gameflowMgr
  {
    if statics.instance != null then statics.instance.gameflowMgr else null
  }

  /** `GetGameflowManager<T>`: the current gameflow manager as `T`, or null. */
  function GetGameflowManager(statics: Statics, t: TypeId): (r: GameflowManager?)
    reads statics, statics.instance
    ensures r != null ==> r == CurrentGameflowManager(statics) && IsA(r.ty, t)
    ensures CurrentGameflowManager(statics) != null && IsA(CurrentGameflowManager(statics).ty, t) ==>
              r == CurrentGameflowManager(statics)
  {
    var g := CurrentGameflowManager(statics);
    if g != null && IsA(g.ty, t) then g else null
  }

  /** `GameInstance.GetPlayerController<T>`: null without a singleton or a gameflow manager. */
  function GetPlayerController(statics: Statics, t: TypeId): (r: Possession.PlayerController?)
    reads statics, statics.instance
    ensures r != null ==>
              CurrentGameflowManager(statics) != null
              && r == CurrentGameflowManager(statics).playerController && IsA(r.ty, t)
    ensures CurrentGameflowManager(statics) != null ==> r == CurrentGameflowManager(statics).GetPlayerController(t)
  {
    var g := CurrentGameflowManager(statics);
    if g != null then g.GetPlayerController(t) else null
  }

  /** `GameInstance.GetCameraController<T>`: null without a singleton or a gameflow manager. */
  function GetCameraController(statics: Statics, t: TypeId): (r: Option<Obj>)
    reads statics, statics.instance
    ensures r.Some? ==>
              CurrentGameflowManager(statics) != null
              && r == CurrentGameflowManager(statics).cameraController && IsA(r.value.ty, t)
    ensures CurrentGameflowManager(statics) != null ==> r == CurrentGameflowManager(statics).GetCameraController(t)
  {
    var g := CurrentGameflowManager(statics);
    if g != null then g.GetCameraController(t) else None
  }

  /** `GameInstance.GetUIController<T>`: null without a singleton or a gameflow manager. */
  function GetUIController(statics: Statics, t: TypeId): (r: UIControllers.UIController?)
    reads statics, statics.instance
    ensures r != null ==>
              CurrentGameflowManager(statics) != null
              && r == CurrentGameflowManager(statics).uiController && IsA(r.ty, t)
    ensures CurrentGameflowManager(statics) != null ==> r == CurrentGameflowManager(statics).GetUIController(t)
  {
    var g := CurrentGameflowManager(statics);
    if g != null then g.GetUIController(t) else null
  }

  /** The current player controller, whose possession link `GetCharacter` reads. */
  function CurrentPlayer(statics: Statics): set<object>
    reads statics, statics.instance
  {
    var g := CurrentGameflowManager(statics);
    if g != null && g.playerController != null then {g.playerController} else {}
  }

  /**
   * `GameInstance.GetCharacter<T>`: the character possessed by the current
   * player controller, as `T`; null when any link of the chain is missing.
   */
  function GetCharacter(statics: Statics, t: TypeId): (r: Possession.Character?)
    reads statics, statics.instance, CurrentPlayer(statics)
    ensures r != null ==>
              && CurrentGameflowManager(statics) != null
              && CurrentGameflowManager(statics).playerController != null
              && r == CurrentGameflowManager(statics).playerController.controlledCharacter
              && IsA(r.ty, t)
    ensures CurrentGameflowManager(statics) != null && CurrentGameflowManager(statics).playerController != null ==>
              r == CurrentGameflowManager(statics).playerController.GetControlledCharacter(t)
  {
    var g := CurrentGameflowManager(statics);
    if g != null && g.playerController != null then g.playerController.GetControlledCharacter(t) else null
  }

  /**
   * `GameInstance.GetPersistentManager(Type, bool)`: null without a singleton;
   * otherwise the first persistent manager of the queried type (or of a
   * strict subclass of it, when `considerSubclass`). `warned` is the editor
   * warning for a query that does not derive from `PersistentManager`.
   */
  method GetPersistentManagerByType(statics: Statics, managerType: TypeId, considerSubclass: bool)
    returns (r: Option<Obj>, warned: bool)
    ensures statics.instance == null ==> r.None? && !warned
    ensures statics.instance != null ==>
              && (warned <==> !IsSubclassOf(managerType, PersistentManagerType))
              && r == ManagerRegistry.Resolve(statics.instance.managers, managerType, considerSubclass)
    ensures r.Some? ==> statics.instance != null && r.value in statics.instance.managers && IsA(r.value.ty, managerType)
  {
    r, warned := None, false;
    if statics.instance != null {
      warned := !IsSubclassOf(managerType, PersistentManagerType);
      r := ManagerRegistry.Lookup(statics.instance.managers, managerType, considerSubclass);
      if r.Some? {
        ManagerRegistry.ResolveReturnsRelatedEntry(statics.instance.managers, managerType, considerSubclass);
      }
    }
  }

  /** `GameInstance.GetPersistentManager<T>(bool)`: the by-type lookup cast to `T`, forwarding the flag. */
  method GetPersistentManager(statics: Statics, t: TypeId, considerSubclass: bool) returns (r: Option<Obj>)
    ensures statics.instance == null ==> r.None?
    ensures statics.instance != null ==> r == ManagerRegistry.Resolve(statics.instance.managers, t, considerSubclass)
  {
    r := None;
    if statics.instance != null {
      var found, _ := GetPersistentManagerByType(statics, t, considerSubclass);
      ManagerRegistry.CastOfResolveKeepsResult(statics.instance.managers, t, considerSubclass);
      r := Cast(found, t);
    }
  }

  /**
   * `GameInstance.GetManager<T>(bool considerSubclass)` as written: it calls
   * the gameflow manager's lookup with the default `true`, so its own flag
   * has no effect.
   */
  method GetManagerAsWritten(statics: Statics, t: TypeId, considerSubclass: bool) returns (r: Option<Obj>)
    ensures CurrentGameflowManager(statics) == null ==> r.None?
    ensures CurrentGameflowManager(statics) != null ==>
              r == ManagerRegistry.Resolve(CurrentGameflowManager(statics).managers, t, true)
  {
    r := None;
    var g := CurrentGameflowManager(statics);
    if g != null {
      r := g.GetManager(t, true);
    }
  }

  /** `GameInstance.GetManager<T>(bool considerSubclass)` forwarding its flag, as its signature intends. */
  method GetManager(statics: Statics, t: TypeId, considerSubclass: bool) returns (r: Option<Obj>)
    ensures CurrentGameflowManager(statics) == null ==> r.None?
    ensures CurrentGameflowManager(statics) != null ==>
              r == ManagerRegistry.Resolve(CurrentGameflowManager(statics).managers, t, considerSubclass)
    ensures r.Some? && !considerSubclass ==> r.value.ty == t
  {
    r := None;
    var g := CurrentGameflowManager(statics);
    if g != null {
      r := g.GetManager(t, considerSubclass);
      if r.Some? {
        ManagerRegistry.ResolveReturnsRelatedEntry(g.managers, t, considerSubclass);
      }
    }
  }

  /**
   * The flag matters: with one scene manager of a strict subclass of the
   * queried type, an exact-only query finds nothing, yet the as-written
   * `GetManager` (always `true`) returns that manager.
   */
  lemma IgnoredFlagReturnsSubclass()
    ensures var managers := [Obj(0, ManagerType + ["Sub"])];
            && ManagerRegistry.Resolve(managers, ManagerType, true) == Some(managers[0])
            && ManagerRegistry.Resolve(managers, ManagerType, false) == None
  {
    var managers := [Obj(0, ManagerType + ["Sub"])];
    assert managers[0].ty[..|ManagerType|] == ManagerType;
    assert managers[1..] == [];
  }

  /** `GameInstance.LoadScene(string)`: forwards to the singleton, which must exist. */
  method LoadScene(statics: Statics, sceneName: string, first: AsyncStatus)
    requires statics.instance != null
    modifies statics.instance`toLoadSceneName, statics.instance`sceneLoading, statics.instance`routines,
             statics.instance`events
    ensures statics.instance.LoadState() == Request(statics.instance.managers, old(statics.instance.LoadState()), sceneName, first).0
    ensures statics.instance.events ==
              old(statics.instance.events) + Request(statics.instance.managers, old(statics.instance.LoadState()), sceneName, first).1
  {
    statics.instance.LoadSceneInternal(sceneName, first);
  }

  /** `GameInstance.LoadScene(int)`: loads the scene stored at that build index. */
  method LoadSceneByIndex(statics: Statics, sceneBuildIndex: int, first: AsyncStatus)
    requires statics.instance != null
    requires 0 <= sceneBuildIndex < |statics.instance.scenesInfo.sceneNames|
    modifies statics.instance`toLoadSceneName, statics.instance`sceneLoading, statics.instance`routines,
             statics.instance`events
    ensures var name := statics.instance.scenesInfo.sceneNames[sceneBuildIndex];
            && statics.instance.LoadState() == Request(statics.instance.managers, old(statics.instance.LoadState()), name, first).0
            && statics.instance.events ==
                 old(statics.instance.events) + Request(statics.instance.managers, old(statics.instance.LoadState()), name, first).1
  {
    LoadScene(statics, statics.instance.scenesInfo.GetSceneName(sceneBuildIndex), first);
  }

  /**
   * A second `GameInstance` (the persistent scene loaded again) is discarded:
   * the first one stays the singleton, also after the second one's `OnDestroy`.
   */
  method DuplicateInstanceIsDiscarded(statics: Statics, a: GameInstance, b: GameInstance)
    requires statics.instance == null && a != b
    requires !b.sceneLoadedHooked && !b.persistent
    modifies statics, a, b
    ensures statics.instance == a && a.sceneLoadedHooked && a.persistent
    ensures b.destroyRequested && !b.sceneLoadedHooked && !b.persistent
  {
    a.Awake(statics);
    b.Awake(statics);
    b.OnDestroy(statics);
  }

  /**
   * Each scene's `GameflowManager` replaces the previous one in the singleton,
   * without touching the scene-load state.
   */
  method SceneSwitchRebindsGameflow(statics: Statics, g1: GameflowManager, g2: GameflowManager)
    requires statics.instance != null
    modifies statics.instance`gameflowMgr
    ensures CurrentGameflowManager(statics) == g2
    ensures statics.instance.LoadState() == old(statics.instance.LoadState())
  {
    g1.Awake(statics);
    g2.Awake(statics);
  }
}
