/**
 * The editor validator run on every `sceneLoaded`: it walks the components of
 * a scene and, for each MonoBehaviour, checks its `RequireLayer` attribute on
 * every instance and its `RequirePersistentManager` / `RequireManager`
 * attributes once per concrete type, reporting problems as diagnostics. A
 * type that requires managers while the singleton (respectively the
 * gameflow manager) is missing aborts the rest of the pass.
 *
 * A scene is its root objects, each with the components
 * `GetComponentsInChildren<Component>(true)` returns, in order. What the
 * checker reads from the runtime is an `Environment` snapshot of the statics.
 */
module RequireManagerChecker {
  import opened Types
  import ManagerRegistry
  import Roots

  /** The five `requiredManagerTypeN` fields of one attribute; null slots are `None`. */
  datatype Slots = Slots(t1: Option<TypeId>, t2: Option<TypeId>, t3: Option<TypeId>, t4: Option<TypeId>, t5: Option<TypeId>)

  function SlotList(s: Slots): (r: seq<Option<TypeId>>)
    ensures |r| == 5
  {
    [s.t1, s.t2, s.t3, s.t4, s.t5]
  }

  /** A `RequireLayer` attribute: the layer's name and the layer index it resolved to (-1 for an unknown name). */
  datatype LayerRequirement = LayerRequirement(layerName: string, layerMask: int)

  /** The attributes a script class carries, inherited ones included. */
  datatype ScriptAttributes = ScriptAttributes(
    requireLayer: Option<LayerRequirement>,
    requireManager: seq<Slots>,
    requirePersistentManager: seq<Slots>)

  /** A component slot: a missing script reads as null. */
  datatype Component =
    | MissingComponent
    | Present(ty: TypeId, gameObjectName: string, layer: int)

  datatype RootObject = RootObject(name: string, components: seq<Component>)

  /** Which registry a requirement is checked against. */
  datatype Registry = PersistentRegistry | SceneRegistry

  function BaseType(kind: Registry): TypeId {
    match kind
    case PersistentRegistry => PersistentManagerType
    case SceneRegistry => ManagerType
  }

  /**
   * The runtime seen by the checker: the singleton's persistent managers, or
   * `None` without a singleton; the current gameflow manager's managers, or
   * `None` without one.
   */
  datatype Environment = Environment(persistentManagers: Option<seq<Obj>>, sceneManagers: Option<seq<Obj>>)

  /** The snapshot of the statics the checker reads. */
  function Snapshot(statics: Roots.Statics): (r: Environment)
    reads statics, statics.instance
    ensures r.persistentManagers.None? <==> statics.instance == null
    ensures r.sceneManagers.None? <==> Roots.CurrentGameflowManager(statics) == null
    ensures r.persistentManagers.None? ==> r.sceneManagers.None?
    ensures r.persistentManagers.Some? ==> r.persistentManagers.value == statics.instance.managers
    ensures r.sceneManagers.Some? ==> r.sceneManagers.value == Roots.CurrentGameflowManager(statics).managers
  {
    var g := Roots.CurrentGameflowManager(statics);
    Environment(if statics.instance != null then Some(statics.instance.managers) else None,
                if g != null then Some(g.managers) else None)
  }

  datatype Diagnostic =
    | MissingScriptIn(rootName: string)
    | UnknownLayerName(layerName: string)
    | WrongLayer(gameObjectName: string, layerMask: int)
    /** "GameInstance is missing" (persistent) or "GameInstance or GameflowMgr is missing" (scene). */
    | RootMissing(kind: Registry)
    /** The required type does not derive from `Manager` / `PersistentManager`. */
    | NotDerived(kind: Registry, owner: TypeId, required: TypeId)
    /** The required type has no entry in the registry. */
    | Missing(kind: Registry, owner: TypeId, required: TypeId)

  /** Some registry entry is the required type or derives from it. */
  predicate Provided(managers: seq<Obj>, required: TypeId) {
    exists i :: 0 <= i < |managers| && IsA(managers[i].ty, required)
  }

  /**
   * `CheckRequireManagerAttribute(Type, Type)` and its persistent twin: a null
   * slot says nothing; a type that does not derive from the registry's base
   * type gets one warning and no lookup; otherwise a warning exactly when the
   * subclass-enabled lookup finds nothing.
   */
  function SlotDiagnostics(kind: Registry, owner: TypeId, slot: Option<TypeId>, managers: seq<Obj>): (r: seq<Diagnostic>)
    ensures slot.None? ==> r == []
    ensures slot.Some? && !IsSubclassOf(slot.value, BaseType(kind)) ==> r == [NotDerived(kind, owner, slot.value)]
    ensures slot.Some? && IsSubclassOf(slot.value, BaseType(kind)) ==>
              && (r == [] <==> Provided(managers, slot.value))
              && (r != [] ==> r == [Missing(kind, owner, slot.value)])
  {
    if slot.None? then []
    else if !IsSubclassOf(slot.value, BaseType(kind)) then [NotDerived(kind, owner, slot.value)]
    else
      ManagerRegistry.ResolveIsFirstMatch(managers, slot.value, true);
      if ManagerRegistry.Resolve(managers, slot.value, true).None? then [Missing(kind, owner, slot.value)] else []
  }

  /** The slot checks of one attribute, in field order. */
  function SlotsDiagnostics(kind: Registry, owner: TypeId, slots: seq<Option<TypeId>>, managers: seq<Obj>): seq<Diagnostic>
    decreases |slots|
  {
    if slots == [] then []
    else SlotsDiagnostics(kind, owner, slots[..|slots| - 1], managers) + SlotDiagnostics(kind, owner, slots[|slots| - 1], managers)
  }

  /** The slot checks of every attribute, in order. */
  function AttributeDiagnostics(kind: Registry, owner: TypeId, attributes: seq<Slots>, managers: seq<Obj>): seq<Diagnostic>
    decreases |attributes|
  {
    if attributes == [] then []
    else
      AttributeDiagnostics(kind, owner, attributes[..|attributes| - 1], managers)
      + SlotsDiagnostics(kind, owner, SlotList(attributes[|attributes| - 1]), managers)
  }

  /**
   * `CheckRequireManagerAttribute(MonoScript)` and its persistent twin: the
   * pass goes on (`true`) unless the type carries the attribute while the
   * registry's owner is missing, which is reported once.
   */
  function AttributeCheck(kind: Registry, owner: TypeId, attributes: seq<Slots>, registry: Option<seq<Obj>>): (r: (bool, seq<Diagnostic>))
    ensures !r.0 <==> attributes != [] && registry.None?
    ensures !r.0 ==> r.1 == [RootMissing(kind)]
    ensures attributes == [] ==> r.1 == []
    ensures registry.Some? ==> r.1 == AttributeDiagnostics(kind, owner, attributes, registry.value)
  {
    if attributes == [] then (true, [])
    else if registry.None? then (false, [RootMissing(kind)])
    else (true, AttributeDiagnostics(kind, owner, attributes, registry.value))
  }

  /** The loop over one script's attributes. */
  method CheckAttributes(kind: Registry, owner: TypeId, attributes: seq<Slots>, registry: Option<seq<Obj>>)
    returns (ok: bool, diags: seq<Diagnostic>)
    ensures (ok, diags) == AttributeCheck(kind, owner, attributes, registry)
  {
    if attributes == [] {
      return true, [];
    }
    if registry.None? {
      return false, [RootMissing(kind)];
    }
    var managers := registry.value;
    ok, diags := true, [];
    var i := 0;
    while i < |attributes|
      invariant 0 <= i <= |attributes|
      invariant diags == AttributeDiagnostics(kind, owner, attributes[..i], managers)
    {
      var d := CheckSlots(kind, owner, SlotList(attributes[i]), managers);
      assert attributes[..i + 1][..i] == attributes[..i];
      diags := diags + d;
      i := i + 1;
    }
    assert attributes[..i] == attributes;
  }

  /** The five `CheckRequireManagerAttribute(type, slot)` calls of one attribute. */
  method CheckSlots(kind: Registry, owner: TypeId, slots: seq<Option<TypeId>>, managers: seq<Obj>)
    returns (diags: seq<Diagnostic>)
    ensures diags == SlotsDiagnostics(kind, owner, slots, managers)
  {
    diags := [];
    var k := 0;
    while k < |slots|
      invariant 0 <= k <= |slots|
      invariant diags == SlotsDiagnostics(kind, owner, slots[..k], managers)
    {
      assert slots[..k + 1][..k] == slots[..k];
      diags := diags + SlotDiagnostics(kind, owner, slots[k], managers);
      k := k + 1;
    }
    assert slots[..k] == slots;
  }

  /** Every required type in the slots derives from the base type and is provided by the registry. */
  predicate Satisfied(kind: Registry, slots: seq<Option<TypeId>>, managers: seq<Obj>) {
    forall k :: 0 <= k < |slots| && slots[k].Some? ==>
      IsSubclassOf(slots[k].value, BaseType(kind)) && Provided(managers, slots[k].value)
  }

  lemma {:induction false} SatisfiedSlotsAreSilent(kind: Registry, owner: TypeId, slots: seq<Option<TypeId>>, managers: seq<Obj>)
    requires Satisfied(kind, slots, managers)
    ensures SlotsDiagnostics(kind, owner, slots, managers) == []
    decreases |slots|
  {
    if slots != [] {
      var n := |slots| - 1;
      assert Satisfied(kind, slots[..n], managers) by {
        forall k | 0 <= k < n && slots[..n][k].Some?
          ensures IsSubclassOf(slots[..n][k].value, BaseType(kind)) && Provided(managers, slots[..n][k].value)
        {
          assert slots[..n][k] == slots[k];
        }
      }
      SatisfiedSlotsAreSilent(kind, owner, slots[..n], managers);
    }
  }

  /** Requirements that are all met produce no diagnostic. */
  lemma {:induction false} SatisfiedRequirementsAreSilent(kind: Registry, owner: TypeId, attributes: seq<Slots>, managers: seq<Obj>)
    requires forall j :: 0 <= j < |attributes| ==> Satisfied(kind, SlotList(attributes[j]), managers)
    ensures AttributeDiagnostics(kind, owner, attributes, managers) == []
    decreases |attributes|
  {
    if attributes != [] {
      var n := |attributes| - 1;
      SatisfiedRequirementsAreSilent(kind, owner, attributes[..n], managers);
      SatisfiedSlotsAreSilent(kind, owner, SlotList(attributes[n]), managers);
    }
  }

  lemma {:induction false} MissingSlotWarningsAreGenuine(kind: Registry, owner: TypeId, slots: seq<Option<TypeId>>, managers: seq<Obj>, t: TypeId)
    requires Missing(kind, owner, t) in SlotsDiagnostics(kind, owner, slots, managers)
    ensures IsSubclassOf(t, BaseType(kind)) && !Provided(managers, t)
    decreases |slots|
  {
    var n := |slots| - 1;
    if Missing(kind, owner, t) in SlotsDiagnostics(kind, owner, slots[..n], managers) {
      MissingSlotWarningsAreGenuine(kind, owner, slots[..n], managers, t);
    }
  }

  /** Every missing-reference warning names a well-derived type that no registry entry provides. */
  lemma {:induction false} MissingWarningsAreGenuine(kind: Registry, owner: TypeId, attributes: seq<Slots>, managers: seq<Obj>, t: TypeId)
    requires Missing(kind, owner, t) in AttributeDiagnostics(kind, owner, attributes, managers)
    ensures IsSubclassOf(t, BaseType(kind)) && !Provided(managers, t)
    decreases |attributes|
  {
    var n := |attributes| - 1;
    if Missing(kind, owner, t) in AttributeDiagnostics(kind, owner, attributes[..n], managers) {
      MissingWarningsAreGenuine(kind, owner, attributes[..n], managers, t);
    } else {
      MissingSlotWarningsAreGenuine(kind, owner, SlotList(attributes[n]), managers, t);
    }
  }

  /** `RequireLayer` on one instance: an unknown layer name is reported, then the wrong layer. */
  function LayerDiagnostics(req: Option<LayerRequirement>, gameObjectName: string, layer: int): (r: seq<Diagnostic>)
    ensures req.None? || layer == req.value.layerMask ==> r == []
    ensures req.Some? && layer != req.value.layerMask ==>
              && 1 <= |r| <= 2 && r[|r| - 1] == WrongLayer(gameObjectName, req.value.layerMask)
              && (|r| == 2 <==> req.value.layerMask == -1)
              && (|r| == 2 ==> r[0] == UnknownLayerName(req.value.layerName))
  {
    if req.Some? && layer != req.value.layerMask then
      (if req.value.layerMask == -1 then [UnknownLayerName(req.value.layerName)] else [])
      + [WrongLayer(gameObjectName, req.value.layerMask)]
    else []
  }

  /** The walk's state: the `checkedTypes` set (in insertion order), the diagnostics, and whether it returned early. */
  datatype Pass = Pass(checkedTypes: seq<TypeId>, diags: seq<Diagnostic>, aborted: bool)

  const Fresh: Pass := Pass([], [], false)

  /** The body of the inner `foreach` for one component of root `rootName`. */
  function VisitComponent(attrsOf: TypeId -> ScriptAttributes, env: Environment, rootName: string, p: Pass, c: Component): Pass {
    match c
    case MissingComponent => p.(diags := p.diags + [MissingScriptIn(rootName)])
    case Present(ty, goName, layer) =>
      if !IsA(ty, MonoBehaviourType) then p
      else
        var attrs := attrsOf(ty);
        var diags := p.diags + LayerDiagnostics(attrs.requireLayer, goName, layer);
        if ty in p.checkedTypes then p.(diags := diags)
        else
          var checkedTypes := p.checkedTypes + [ty];
          var persistent := AttributeCheck(PersistentRegistry, ty, attrs.requirePersistentManager, env.persistentManagers);
          if !persistent.0 then Pass(checkedTypes, diags + persistent.1, true)
          else
            var scene := AttributeCheck(SceneRegistry, ty, attrs.requireManager, env.sceneManagers);
            Pass(checkedTypes, diags + persistent.1 + scene.1, !scene.0)
  }

  /** The inner loop: the components of one root, stopping once the pass aborts. */
  function VisitAll(attrsOf: TypeId -> ScriptAttributes, env: Environment, rootName: string, p: Pass, comps: seq<Component>): Pass
    decreases |comps|
  {
    if comps == [] || p.aborted then p
    else VisitAll(attrsOf, env, rootName, VisitComponent(attrsOf, env, rootName, p, comps[0]), comps[1..])
  }

  /** The outer loop over the scene's root objects. */
  function WalkRoots(attrsOf: TypeId -> ScriptAttributes, env: Environment, p: Pass, roots: seq<RootObject>): Pass
    decreases |roots|
  {
    if roots == [] || p.aborted then p
    else WalkRoots(attrsOf, env, VisitAll(attrsOf, env, roots[0].name, p, roots[0].components), roots[1..])
  }

  /** `CheckRequireManagerAttributeInScene`, as a specification. */
  function ScenePass(attrsOf: TypeId -> ScriptAttributes, env: Environment, scene: seq<RootObject>): Pass {
    WalkRoots(attrsOf, env, Fresh, scene)
  }

  /** Once the pass has returned, nothing more happens in the current root. */
  lemma {:induction false} AbortedVisitIsFinal(attrsOf: TypeId -> ScriptAttributes, env: Environment, rootName: string, p: Pass, comps: seq<Component>)
    requires p.aborted
    ensures VisitAll(attrsOf, env, rootName, p, comps) == p
  {
  }

  /** Once the pass has returned, later roots are not visited. */
  lemma {:induction false} AbortedWalkIsFinal(attrsOf: TypeId -> ScriptAttributes, env: Environment, p: Pass, roots: seq<RootObject>)
    requires p.aborted
    ensures WalkRoots(attrsOf, env, p, roots) == p
  {
  }

  /** The nested `foreach` loops with their early `return`. */
  method CheckRequireManagerAttributeInScene(attrsOf: TypeId -> ScriptAttributes, env: Environment, scene: seq<RootObject>)
    returns (diags: seq<Diagnostic>)
    ensures diags == ScenePass(attrsOf, env, scene).diags
  {
    var checkedTypes: seq<TypeId> := [];
    diags := [];
    var i := 0;
    while i < |scene|
      invariant 0 <= i <= |scene|
      invariant ScenePass(attrsOf, env, scene) == WalkRoots(attrsOf, env, Pass(checkedTypes, diags, false), scene[i..])
    {
      var root := scene[i];
      assert scene[i..][0] == root && scene[i..][1..] == scene[i + 1..];
      var j := 0;
      while j < |root.components|
        invariant 0 <= j <= |root.components|
        invariant ScenePass(attrsOf, env, scene) ==
                    WalkRoots(attrsOf, env, VisitAll(attrsOf, env, root.name, Pass(checkedTypes, diags, false), root.components[j..]), scene[i + 1..])
      {
        var c := root.components[j];
        ghost var before := Pass(checkedTypes, diags, false);
        assert root.components[j..][0] == c && root.components[j..][1..] == root.components[j + 1..];
        if c.MissingComponent? {
          diags := diags + [MissingScriptIn(root.name)];
        } else if IsA(c.ty, MonoBehaviourType) {
          var attrs := attrsOf(c.ty);
          if attrs.requireLayer.Some? && c.layer != attrs.requireLayer.value.layerMask {
            if attrs.requireLayer.value.layerMask == -1 {
              diags := diags + [UnknownLayerName(attrs.requireLayer.value.layerName)];
            }
            diags := diags + [WrongLayer(c.gameObjectName, attrs.requireLayer.value.layerMask)];
          }
          assert diags == before.diags + LayerDiagnostics(attrs.requireLayer, c.gameObjectName, c.layer);
          if c.ty !in checkedTypes {
            checkedTypes := checkedTypes + [c.ty];
            var persistentOk, persistentDiags := CheckAttributes(PersistentRegistry, c.ty, attrs.requirePersistentManager, env.persistentManagers);
            diags := diags + persistentDiags;
            if !persistentOk {
              FinishAborted(attrsOf, env, root.name, Pass(checkedTypes, diags, true), root.components[j + 1..], scene[i + 1..]);
              return;
            }
            var sceneOk, sceneDiags := CheckAttributes(SceneRegistry, c.ty, attrs.requireManager, env.sceneManagers);
            diags := diags + sceneDiags;
            if !sceneOk {
              FinishAborted(attrsOf, env, root.name, Pass(checkedTypes, diags, true), root.components[j + 1..], scene[i + 1..]);
              return;
            }
          }
        }
        assert VisitComponent(attrsOf, env, root.name, before, c) == Pass(checkedTypes, diags, false);
        j := j + 1;
      }
      assert root.components[j..] == [];
      i := i + 1;
    }
  }

  /** An aborted pass is the walk's result, whatever remains of the root and of the scene. */
  lemma FinishAborted(attrsOf: TypeId -> ScriptAttributes, env: Environment, rootName: string, p: Pass,
                      comps: seq<Component>, roots: seq<RootObject>)
    requires p.aborted
    ensures WalkRoots(attrsOf, env, VisitAll(attrsOf, env, rootName, p, comps), roots) == p
  {
    AbortedVisitIsFinal(attrsOf, env, rootName, p, comps);
    AbortedWalkIsFinal(attrsOf, env, p, roots);
  }

  /**
   * `OnSceneLoaded`: the loaded scene is always checked; the persistent
   * scene only when the singleton exists, a missing one being reported.
   */
  method OnSceneLoaded(attrsOf: TypeId -> ScriptAttributes, env: Environment,
                       loaded: seq<RootObject>, persistentScene: seq<RootObject>)
    returns (diags: seq<Diagnostic>)
    ensures env.persistentManagers.None? ==>
              diags == ScenePass(attrsOf, env, loaded).diags + [RootMissing(PersistentRegistry)]
    ensures env.persistentManagers.Some? ==>
              diags == ScenePass(attrsOf, env, loaded).diags + ScenePass(attrsOf, env, persistentScene).diags
  {
    diags := CheckRequireManagerAttributeInScene(attrsOf, env, loaded);
    if env.persistentManagers.None? {
      diags := diags + [RootMissing(PersistentRegistry)];
      return;
    }
    var more := CheckRequireManagerAttributeInScene(attrsOf, env, persistentScene);
    diags := diags + more;
  }

  /** No type occurs twice in `checkedTypes`. */
  predicate NoDuplicates(types: seq<TypeId>) {
    forall a, b :: 0 <= a < b < |types| ==> types[a] != types[b]
  }

  /** Every checked type is a MonoBehaviour type. */
  predicate AllMonoBehaviours(types: seq<TypeId>) {
    forall a :: 0 <= a < |types| ==> IsA(types[a], MonoBehaviourType)
  }

  lemma VisitComponentKeepsCheckedTypesDistinct(attrsOf: TypeId -> ScriptAttributes, env: Environment, rootName: string, p: Pass, c: Component)
    requires NoDuplicates(p.checkedTypes) && AllMonoBehaviours(p.checkedTypes)
    ensures var q := VisitComponent(attrsOf, env, rootName, p, c);
            NoDuplicates(q.checkedTypes) && AllMonoBehaviours(q.checkedTypes)
    ensures var q := VisitComponent(attrsOf, env, rootName, p, c);
            q.checkedTypes == p.checkedTypes || (c.Present? && q.checkedTypes == p.checkedTypes + [c.ty])
  {
  }

  lemma {:induction false} VisitAllKeepsCheckedTypesDistinct(attrsOf: TypeId -> ScriptAttributes, env: Environment, rootName: string, p: Pass, comps: seq<Component>)
    requires NoDuplicates(p.checkedTypes) && AllMonoBehaviours(p.checkedTypes)
    ensures var q := VisitAll(attrsOf, env, rootName, p, comps);
            NoDuplicates(q.checkedTypes) && AllMonoBehaviours(q.checkedTypes)
    decreases |comps|
  {
    if comps != [] && !p.aborted {
      VisitComponentKeepsCheckedTypesDistinct(attrsOf, env, rootName, p, comps[0]);
      VisitAllKeepsCheckedTypesDistinct(attrsOf, env, rootName, VisitComponent(attrsOf, env, rootName, p, comps[0]), comps[1..]);
    }
  }

  lemma {:induction false} WalkKeepsCheckedTypesDistinct(attrsOf: TypeId -> ScriptAttributes, env: Environment, p: Pass, roots: seq<RootObject>)
    requires NoDuplicates(p.checkedTypes) && AllMonoBehaviours(p.checkedTypes)
    ensures var q := WalkRoots(attrsOf, env, p, roots);
            NoDuplicates(q.checkedTypes) && AllMonoBehaviours(q.checkedTypes)
    decreases |roots|
  {
    if roots != [] && !p.aborted {
      VisitAllKeepsCheckedTypesDistinct(attrsOf, env, roots[0].name, p, roots[0].components);
      WalkKeepsCheckedTypesDistinct(attrsOf, env, VisitAll(attrsOf, env, roots[0].name, p, roots[0].components), roots[1..]);
    }
  }

  /** Each concrete MonoBehaviour type has its attributes checked at most once per pass. */
  lemma EachTypeCheckedAtMostOnce(attrsOf: TypeId -> ScriptAttributes, env: Environment, scene: seq<RootObject>)
    ensures NoDuplicates(ScenePass(attrsOf, env, scene).checkedTypes)
    ensures AllMonoBehaviours(ScenePass(attrsOf, env, scene).checkedTypes)
  {
    WalkKeepsCheckedTypesDistinct(attrsOf, env, Fresh, scene);
  }

  /**
   * A MonoBehaviour component whose visit can only add its layer diagnostics:
   * its type was already checked, or it has no manager requirement.
   */
  predicate LayerOnly(attrsOf: TypeId -> ScriptAttributes, checkedTypes: seq<TypeId>, c: Component) {
    c.Present? && IsA(c.ty, MonoBehaviourType)
    && (c.ty in checkedTypes
        || (attrsOf(c.ty).requireManager == [] && attrsOf(c.ty).requirePersistentManager == []))
  }

  /** The layer diagnostics of each component in turn. */
  function LayerDiagnosticsOf(attrsOf: TypeId -> ScriptAttributes, comps: seq<Component>): seq<Diagnostic>
    decreases |comps|
  {
    if comps == [] then []
    else
      (if comps[0].Present? then LayerDiagnostics(attrsOf(comps[0].ty).requireLayer, comps[0].gameObjectName, comps[0].layer) else [])
      + LayerDiagnosticsOf(attrsOf, comps[1..])
  }

  lemma LayerOnlyVisit(attrsOf: TypeId -> ScriptAttributes, env: Environment, rootName: string, p: Pass, c: Component)
    requires !p.aborted && LayerOnly(attrsOf, p.checkedTypes, c)
    ensures var q := VisitComponent(attrsOf, env, rootName, p, c);
            && !q.aborted
            && q.diags == p.diags + LayerDiagnostics(attrsOf(c.ty).requireLayer, c.gameObjectName, c.layer)
            && forall t :: t in p.checkedTypes ==> t in q.checkedTypes
  {
    if c.ty !in p.checkedTypes {
      var attrs := attrsOf(c.ty);
      assert AttributeCheck(PersistentRegistry, c.ty, attrs.requirePersistentManager, env.persistentManagers) == (true, []);
      assert AttributeCheck(SceneRegistry, c.ty, attrs.requireManager, env.sceneManagers) == (true, []);
    }
  }

  /**
   * The layer is checked on every instance: each component whose type was
   * checked before the root, or has no manager requirement, contributes its
   * own layer diagnostics, whether or not its type is already checked, and
   * the pass never aborts.
   */
  lemma {:induction false} LayerCheckedOnEveryInstance(attrsOf: TypeId -> ScriptAttributes, env: Environment, rootName: string, p: Pass, comps: seq<Component>)
    requires !p.aborted
    requires forall k :: 0 <= k < |comps| ==> LayerOnly(attrsOf, p.checkedTypes, comps[k])
    ensures !VisitAll(attrsOf, env, rootName, p, comps).aborted
    ensures VisitAll(attrsOf, env, rootName, p, comps).diags == p.diags + LayerDiagnosticsOf(attrsOf, comps)
    decreases |comps|
  {
    if comps != [] {
      var q := LayerStep(attrsOf, env, rootName, p, comps);
      LayerCheckedOnEveryInstance(attrsOf, env, rootName, q, comps[1..]);
    }
  }

  /** One step of the inner loop over a component without manager requirements. */
  lemma LayerStep(attrsOf: TypeId -> ScriptAttributes, env: Environment, rootName: string, p: Pass, comps: seq<Component>)
    returns (q: Pass)
    requires !p.aborted && comps != []
    requires forall k :: 0 <= k < |comps| ==> LayerOnly(attrsOf, p.checkedTypes, comps[k])
    ensures !q.aborted && forall k :: 0 <= k < |comps[1..]| ==> LayerOnly(attrsOf, q.checkedTypes, comps[1..][k])
    ensures VisitAll(attrsOf, env, rootName, p, comps) == VisitAll(attrsOf, env, rootName, q, comps[1..])
    ensures q.diags + LayerDiagnosticsOf(attrsOf, comps[1..]) == p.diags + LayerDiagnosticsOf(attrsOf, comps)
  {
    assert LayerOnly(attrsOf, p.checkedTypes, comps[0]);
    q := VisitComponent(attrsOf, env, rootName, p, comps[0]);
    LayerOnlyVisit(attrsOf, env, rootName, p, comps[0]);
    VisitAllUnfolds(attrsOf, env, rootName, p, comps);
    LayerDiagnosticsOfUnfolds(attrsOf, comps);
    forall k | 0 <= k < |comps[1..]| ensures LayerOnly(attrsOf, q.checkedTypes, comps[1..][k]) {
      assert comps[1..][k] == comps[k + 1];
      assert LayerOnly(attrsOf, p.checkedTypes, comps[k + 1]);
    }
  }

  lemma VisitAllUnfolds(attrsOf: TypeId -> ScriptAttributes, env: Environment, rootName: string, p: Pass, comps: seq<Component>)
    requires !p.aborted && comps != []
    ensures VisitAll(attrsOf, env, rootName, p, comps)
         == VisitAll(attrsOf, env, rootName, VisitComponent(attrsOf, env, rootName, p, comps[0]), comps[1..])
  {
  }

  lemma LayerDiagnosticsOfUnfolds(attrsOf: TypeId -> ScriptAttributes, comps: seq<Component>)
    requires comps != [] && comps[0].Present?
    ensures LayerDiagnosticsOf(attrsOf, comps)
         == LayerDiagnostics(attrsOf(comps[0].ty).requireLayer, comps[0].gameObjectName, comps[0].layer)
            + LayerDiagnosticsOf(attrsOf, comps[1..])
  {
  }

  /** A missing script is reported and skipped: it adds one error and never aborts or marks a type checked. */
  lemma {:induction false} MissingScriptsAreSkipped(attrsOf: TypeId -> ScriptAttributes, env: Environment, rootName: string, p: Pass, comps: seq<Component>)
    requires !p.aborted
    requires forall k :: 0 <= k < |comps| ==> comps[k].MissingComponent?
    ensures var q := VisitAll(attrsOf, env, rootName, p, comps);
            !q.aborted && q.checkedTypes == p.checkedTypes
            && q.diags == p.diags + seq(|comps|, _ => MissingScriptIn(rootName))
    decreases |comps|
  {
    if comps != [] {
      var q := VisitComponent(attrsOf, env, rootName, p, comps[0]);
      MissingScriptsAreSkipped(attrsOf, env, rootName, q, comps[1..]);
      assert seq(|comps|, _ => MissingScriptIn(rootName)) == [MissingScriptIn(rootName)] + seq(|comps| - 1, _ => MissingScriptIn(rootName));
    }
  }

  /**
   * A first-seen type requiring persistent managers while the singleton is
   * missing aborts the pass after one report; the scene-manager check of
   * that type is skipped.
   */
  lemma MissingSingletonAborts(attrsOf: TypeId -> ScriptAttributes, env: Environment, rootName: string, p: Pass, c: Component)
    requires c.Present? && IsA(c.ty, MonoBehaviourType) && c.ty !in p.checkedTypes
    requires attrsOf(c.ty).requirePersistentManager != [] && env.persistentManagers.None?
    ensures var q := VisitComponent(attrsOf, env, rootName, p, c);
            && q.aborted
            && q.diags == p.diags + LayerDiagnostics(attrsOf(c.ty).requireLayer, c.gameObjectName, c.layer)
                          + [RootMissing(PersistentRegistry)]
  {
  }

  /**
   * A type already checked is never checked again: a later instance adds its
   * layer diagnostics and no attribute diagnostic, so it cannot abort the pass.
   */
  lemma CheckedTypeNeverAborts(attrsOf: TypeId -> ScriptAttributes, env: Environment, rootName: string, p: Pass, c: Component)
    requires !p.aborted && c.Present? && c.ty in p.checkedTypes
    ensures var q := VisitComponent(attrsOf, env, rootName, p, c);
            && !q.aborted && q.checkedTypes == p.checkedTypes
            && q.diags == p.diags + (if IsA(c.ty, MonoBehaviourType)
                                     then LayerDiagnostics(attrsOf(c.ty).requireLayer, c.gameObjectName, c.layer)
                                     else [])
  {
  }
}
