/**
 * The scene-load state of `GameInstance` and its `SceneLoadingRoutine`
 * coroutine, as explicit step functions.
 *
 * `LoadSceneInternal` is guarded by `IsLoadingScene` (a non-empty
 * `toLoadSceneName`). The coroutine runs synchronously up to its first
 * `yield`: it notifies every persistent manager of the scene exit, starts the
 * asynchronous load and, while the load reports not done, publishes the raw
 * progress and yields. Once the load is done it yields one more frame, then
 * publishes progress 1 and resets the state to idle (`OnNewSceneReady`).
 * Entry notifications do not come from the routine: they come from the
 * engine's `sceneLoaded` hook. Progress values are forwarded as they are.
 */
module SceneLoading {
  import opened Types

  /** What the framework makes observable, in order. */
  datatype Event =
    | SceneExit(manager: Obj)
    | SceneLoaded(manager: Obj, scene: string)
    | LoadStarted(scene: string)
    | ProgressChanged(progress: real)

  /** The `1f` the routine publishes when it finishes. */
  const FullProgress: real := 1.0

  /** Where a suspended routine resumes. */
  datatype RoutinePc =
    | Polling        // after the `yield` inside `while (!async.isDone)`
    | AfterLastFrame // after the extra `yield` once the load is done

  datatype Routine = Routine(sceneName: string, pc: RoutinePc)

  /** What the engine's `AsyncOperation` reports when the routine checks it. */
  datatype AsyncStatus = AsyncStatus(isDone: bool, progress: real)

  /**
   * The load state: `toLoadSceneName`, whether the `sceneLoading` handle is
   * set, and every coroutine that is still suspended, oldest first.
   */
  datatype Loader = Loader(toLoadSceneName: string, sceneLoading: bool, routines: seq<Routine>)

  const Idle: Loader := Loader("", false, [])

  predicate IsLoadingScene(s: Loader) {
    |s.toLoadSceneName| > 0
  }

  /** `OnSceneExit`: one notification per persistent manager, in array order. */
  function ExitNotifications(managers: seq<Obj>): (r: seq<Event>)
    ensures |r| == |managers|
    ensures forall i :: 0 <= i < |r| ==> r[i] == SceneExit(managers[i])
  {
    if managers == [] then [] else [SceneExit(managers[0])] + ExitNotifications(managers[1..])
  }

  /** `OnSceneLoaded`: one notification per persistent manager, in array order. */
  function LoadedNotifications(managers: seq<Obj>, scene: string): (r: seq<Event>)
    ensures |r| == |managers|
    ensures forall i :: 0 <= i < |r| ==> r[i] == SceneLoaded(managers[i], scene)
  {
    if managers == [] then [] else [SceneLoaded(managers[0], scene)] + LoadedNotifications(managers[1..], scene)
  }

  /** The events of one `while (!async.isDone)` check. */
  function Poll(status: AsyncStatus): seq<Event> {
    if status.isDone then [] else [ProgressChanged(status.progress)]
  }

  function PcAfterPoll(status: AsyncStatus): RoutinePc {
    if status.isDone then AfterLastFrame else Polling
  }

  /**
   * `LoadSceneInternal(sceneName)`, with `first` the load's status at the
   * routine's first check. Returns the new state and the events it emits.
   */
  function Request(managers: seq<Obj>, s: Loader, sceneName: string, first: AsyncStatus): (r: (Loader, seq<Event>))
    ensures IsLoadingScene(s) ==> r == (s, [])
    ensures !IsLoadingScene(s) ==>
              && r.0.toLoadSceneName == sceneName && r.0.sceneLoading
              && r.0.routines == s.routines + [Routine(sceneName, PcAfterPoll(first))]
              && r.1 == ExitNotifications(managers) + [LoadStarted(sceneName)] + Poll(first)
  {
    if IsLoadingScene(s) then (s, [])
    else
      var routine := Routine(sceneName, PcAfterPoll(first));
      (Loader(sceneName, true, s.routines + [routine]),
       ExitNotifications(managers) + [LoadStarted(sceneName)] + Poll(first))
  }

  /** `OnNewSceneReady`: back to idle, whatever routine calls it. */
  function NewSceneReady(s: Loader): Loader {
    s.(toLoadSceneName := "", sceneLoading := false)
  }

  /** The engine resumes suspended routine `i`; `status` is what its load reports now. */
  function Resume(s: Loader, i: nat, status: AsyncStatus): (r: (Loader, seq<Event>))
    requires i < |s.routines|
  {
    var routine := s.routines[i];
    match routine.pc
    case Polling =>
      if status.isDone then (s.(routines := s.routines[i := routine.(pc := AfterLastFrame)]), [])
      else (s, [ProgressChanged(status.progress)])
    case AfterLastFrame =>
      (NewSceneReady(s.(routines := s.routines[..i] + s.routines[i + 1..])), [ProgressChanged(FullProgress)])
  }

  /** The engine resumes the oldest routine once per frame, reporting each status in turn. */
  function Drive(s: Loader, statuses: seq<AsyncStatus>): (Loader, seq<Event>)
    decreases |statuses|
  {
    if statuses == [] || s.routines == [] then (s, [])
    else
      var first := Resume(s, 0, statuses[0]);
      var rest := Drive(first.0, statuses[1..]);
      (rest.0, first.1 + rest.1)
  }

  /** A load that reports not done with each of `samples`, then done. */
  function NotDone(samples: seq<real>): (r: seq<AsyncStatus>)
    ensures |r| == |samples|
    ensures forall i :: 0 <= i < |r| ==> r[i] == AsyncStatus(false, samples[i])
  {
    if samples == [] then [] else [AsyncStatus(false, samples[0])] + NotDone(samples[1..])
  }

  function ProgressEvents(samples: seq<real>): (r: seq<Event>)
    ensures |r| == |samples|
    ensures forall i :: 0 <= i < |r| ==> r[i] == ProgressChanged(samples[i])
  {
    if samples == [] then [] else [ProgressChanged(samples[0])] + ProgressEvents(samples[1..])
  }

  /** At most one routine runs, and one runs exactly while a scene is loading. */
  predicate SingleFlight(s: Loader) {
    || s == Idle
    || (IsLoadingScene(s) && s.sceneLoading && |s.routines| == 1)
  }

  /** `OnSceneExit` notifies each manager as many times as it appears in the array. */
  lemma {:induction false} ExitNotificationsOncePerEntry(managers: seq<Obj>, m: Obj)
    ensures multiset(ExitNotifications(managers))[SceneExit(m)] == multiset(managers)[m]
  {
    if managers != [] {
      var rest := managers[1..];
      ExitNotificationsOncePerEntry(rest, m);
      assert managers == [managers[0]] + rest;
      assert multiset(managers) == multiset([managers[0]]) + multiset(rest);
      assert multiset(ExitNotifications(managers))
          == multiset([SceneExit(managers[0])]) + multiset(ExitNotifications(rest));
    }
  }

  /** `OnSceneLoaded` notifies each manager as many times as it appears in the array. */
  lemma {:induction false} LoadedNotificationsOncePerEntry(managers: seq<Obj>, m: Obj, scene: string)
    ensures multiset(LoadedNotifications(managers, scene))[SceneLoaded(m, scene)] == multiset(managers)[m]
  {
    if managers != [] {
      var rest := managers[1..];
      LoadedNotificationsOncePerEntry(rest, m, scene);
      assert managers == [managers[0]] + rest;
      assert multiset(managers) == multiset([managers[0]]) + multiset(rest);
      assert multiset(LoadedNotifications(managers, scene))
          == multiset([SceneLoaded(managers[0], scene)]) + multiset(LoadedNotifications(rest, scene));
    }
  }

  /**
   * A routine that is polling finishes as the code says: one progress event
   * per not-done check, nothing for the done check, one more frame, then the
   * forced full progress and back to idle.
   */
  lemma {:induction false} PollingRoutineRunsToIdle(name: string, samples: seq<real>, done: real, last: AsyncStatus)
    requires name != ""
    ensures Drive(Loader(name, true, [Routine(name, Polling)]),
                  NotDone(samples) + [AsyncStatus(true, done), last])
         == (Idle, ProgressEvents(samples) + [ProgressChanged(FullProgress)])
  {
    var s := Loader(name, true, [Routine(name, Polling)]);
    var statuses := NotDone(samples) + [AsyncStatus(true, done), last];
    if samples == [] {
      assert statuses == [AsyncStatus(true, done), last];
      var s1 := Loader(name, true, [Routine(name, AfterLastFrame)]);
      assert s.routines[0 := Routine(name, AfterLastFrame)] == s1.routines;
      assert Resume(s, 0, statuses[0]) == (s1, []);
      assert s1.routines[..0] + s1.routines[1..] == [];
      assert Resume(s1, 0, last) == (Idle, [ProgressChanged(FullProgress)]);
      assert Drive(Idle, []) == (Idle, []);
      assert [last][1..] == [];
      assert [last][0] == last;
      assert Resume(s1, 0, [last][0]) == (Idle, [ProgressChanged(FullProgress)]);
      assert Drive(Resume(s1, 0, [last][0]).0, [last][1..]) == (Idle, []);
      assert [ProgressChanged(FullProgress)] + [] == [ProgressChanged(FullProgress)];
      assert Drive(s1, [last]) == (Idle, [ProgressChanged(FullProgress)]);
      assert statuses[1..] == [last];
      assert Drive(Resume(s, 0, statuses[0]).0, statuses[1..]) == (Idle, [ProgressChanged(FullProgress)]);
      assert [] + [ProgressChanged(FullProgress)] == [ProgressChanged(FullProgress)];
    } else {
      assert statuses[0] == AsyncStatus(false, samples[0]);
      assert statuses[1..] == NotDone(samples[1..]) + [AsyncStatus(true, done), last];
      assert Resume(s, 0, statuses[0]) == (s, [ProgressChanged(samples[0])]);
      var rest := Drive(s, statuses[1..]);
      assert Drive(s, statuses) == (rest.0, [ProgressChanged(samples[0])] + rest.1);
      PollingRoutineRunsToIdle(name, samples[1..], done, last);
      assert rest == (Idle, ProgressEvents(samples[1..]) + [ProgressChanged(FullProgress)]);
      assert ProgressEvents(samples) == [ProgressChanged(samples[0])] + ProgressEvents(samples[1..]);
      assert [ProgressChanged(samples[0])] + (ProgressEvents(samples[1..]) + [ProgressChanged(FullProgress)])
          == ProgressEvents(samples) + [ProgressChanged(FullProgress)];
    }
  }

  /**
   * The events of a whole transition: the exit notifications, the start of the
   * load, the raw progress of each not-done check, then the forced full progress.
   */
  function TransitionTrace(managers: seq<Obj>, name: string, samples: seq<real>): seq<Event> {
    ExitNotifications(managers) + [LoadStarted(name)] + ProgressEvents(samples) + [ProgressChanged(FullProgress)]
  }

  /**
   * A transition from idle to a named scene emits exactly its transition trace
   * and leaves the state idle again.
   */
  lemma LoadFromIdleTrace(managers: seq<Obj>, name: string, first: real, samples: seq<real>, done: real, last: AsyncStatus)
    requires name != ""
    ensures Drive(Request(managers, Idle, name, AsyncStatus(false, first)).0,
                  NotDone(samples) + [AsyncStatus(true, done), last]).0 == Idle
    ensures Request(managers, Idle, name, AsyncStatus(false, first)).1
            + Drive(Request(managers, Idle, name, AsyncStatus(false, first)).0,
                    NotDone(samples) + [AsyncStatus(true, done), last]).1
         == TransitionTrace(managers, name, [first] + samples)
    ensures Drive(Request(managers, Idle, name, AsyncStatus(true, first)).0, [last]).0 == Idle
    ensures Request(managers, Idle, name, AsyncStatus(true, first)).1
            + Drive(Request(managers, Idle, name, AsyncStatus(true, first)).0, [last]).1
         == TransitionTrace(managers, name, [])
  {
    DoneAtFirstCheckTrace(managers, name, first, last);
    var r := Request(managers, Idle, name, AsyncStatus(false, first));
    var exits := ExitNotifications(managers);
    assert r.0 == Loader(name, true, [Routine(name, Polling)]);
    assert r.1 == exits + [LoadStarted(name)] + [ProgressChanged(first)];
    PollingRoutineRunsToIdle(name, samples, done, last);
    var rest := ProgressEvents(samples) + [ProgressChanged(FullProgress)];
    assert ProgressEvents([first] + samples) == [ProgressChanged(first)] + ProgressEvents(samples) by {
      assert ([first] + samples)[1..] == samples;
    }
    Reassociate(exits, [LoadStarted(name)], [ProgressChanged(first)], ProgressEvents(samples), [ProgressChanged(FullProgress)]);
  }

  /** A load already done at the first check skips the polling loop: one extra frame, then full progress. */
  lemma DoneAtFirstCheckTrace(managers: seq<Obj>, name: string, done: real, last: AsyncStatus)
    requires name != ""
    ensures Drive(Request(managers, Idle, name, AsyncStatus(true, done)).0, [last]).0 == Idle
    ensures Request(managers, Idle, name, AsyncStatus(true, done)).1
            + Drive(Request(managers, Idle, name, AsyncStatus(true, done)).0, [last]).1
         == TransitionTrace(managers, name, [])
  {
    var r := Request(managers, Idle, name, AsyncStatus(true, done));
    var s1 := Loader(name, true, [Routine(name, AfterLastFrame)]);
    assert r.0 == s1;
    assert r.1 == ExitNotifications(managers) + [LoadStarted(name)];
    assert s1.routines[..0] + s1.routines[1..] == [];
    assert Resume(s1, 0, last) == (Idle, [ProgressChanged(FullProgress)]);
    assert [last][0] == last && [last][1..] == [];
    assert Drive(Idle, []) == (Idle, []);
    assert Resume(s1, 0, [last][0]) == (Idle, [ProgressChanged(FullProgress)]);
    assert Drive(Resume(s1, 0, [last][0]).0, [last][1..]) == (Idle, []);
    assert [ProgressChanged(FullProgress)] + [] == [ProgressChanged(FullProgress)];
    assert Drive(s1, [last]) == (Idle, [ProgressChanged(FullProgress)]);
    assert ProgressEvents([]) == [];
  }

  lemma Reassociate<T>(a: seq<T>, b: seq<T>, c: seq<T>, d: seq<T>, e: seq<T>)
    ensures a + b + c + (d + e) == a + b + (c + d) + e
  {
  }

  /**
   * In a transition trace the exit notifications come before the load starts,
   * no entry notification appears, and the forced full progress is last.
   */
  lemma TransitionTraceOrder(managers: seq<Obj>, name: string, samples: seq<real>)
    ensures var t := TransitionTrace(managers, name, samples);
            && t[|managers|] == LoadStarted(name)
            && (forall k :: 0 <= k < |managers| ==> t[k] == SceneExit(managers[k]))
            && t[|t| - 1] == ProgressChanged(FullProgress)
            && (forall e :: e in t ==> !e.SceneLoaded?)
  {
    var t := TransitionTrace(managers, name, samples);
    forall e | e in t ensures !e.SceneLoaded? {
      var k :| 0 <= k < |t| && t[k] == e;
      if k < |managers| {
        assert t[k] == ExitNotifications(managers)[k];
      } else if |managers| < k < |t| - 1 {
        assert t[k] == ProgressEvents(samples)[k - |managers| - 1];
      }
    }
  }

  /** A request while loading changes nothing and emits nothing. */
  lemma RequestWhileLoadingIsIgnored(managers: seq<Obj>, s: Loader, name: string, first: AsyncStatus)
    requires IsLoadingScene(s)
    ensures Request(managers, s, name, first) == (s, [])
  {
  }

  /** A request for a named scene and every resume keep at most one routine in flight. */
  lemma SingleFlightPreserved(managers: seq<Obj>, s: Loader, name: string, first: AsyncStatus, status: AsyncStatus)
    requires SingleFlight(s) && name != ""
    ensures SingleFlight(Request(managers, s, name, first).0)
    ensures s.routines != [] ==> SingleFlight(Resume(s, 0, status).0)
  {
  }

  /**
   * The empty scene name is not a loading state: the routine starts but the
   * guard stays open, so a second request starts a second routine.
   */
  lemma EmptyNameAdmitsSecondLoad(managers: seq<Obj>, name: string, first: AsyncStatus, second: AsyncStatus)
    requires name != ""
    ensures var s1 := Request(managers, Idle, "", first).0;
            var s2 := Request(managers, s1, name, second).0;
            !IsLoadingScene(s1) && |s1.routines| == 1 && |s2.routines| == 2 && !SingleFlight(s2)
  {
  }
}
