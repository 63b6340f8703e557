/**
 * `UIController`: a controller holding a fixed array of panels, looked up by
 * their exact runtime type.
 */
module UIControllers {
  import opened Types
  import ManagerRegistry

  class UIController {
    const ty: TypeId
    const panels: seq<Obj>

    constructor (ty: TypeId, panels: seq<Obj>)
      ensures this.ty == ty && this.panels == panels
    {
      this.ty := ty;
      this.panels := panels;
    }

    /**
     * `GetPanel<T>`: the first panel whose runtime type is exactly `t`; a
     * panel of a subclass of `t` is never returned, and null when none is.
     */
    method GetPanel(t: TypeId) returns (r: Option<Obj>)
      ensures r == ManagerRegistry.Resolve(panels, t, false)
      ensures r.Some? ==> r.value in panels && r.value.ty == t
      ensures r.None? <==> forall i :: 0 <= i < |panels| ==> panels[i].ty != t
      ensures forall k :: ManagerRegistry.FirstMatchAt(panels, t, false, k) ==> r == Some(panels[k])
    {
      r := ManagerRegistry.Lookup(panels, t, false);
      ManagerRegistry.ResolveIsFirstMatch(panels, t, false);
      if r.Some? {
        ManagerRegistry.ResolveReturnsRelatedEntry(panels, t, false);
      }
      ManagerRegistry.CastOfResolveKeepsResult(panels, t, false);
      r := Cast(r, t);
    }
  }
}
