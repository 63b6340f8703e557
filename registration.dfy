/**
 * Self-registration: an `AutoRegisterManager` keeps a set of elements, and a
 * `Registerable` component adds itself (cast to its element type) when it
 * wakes up and removes itself when it is destroyed.
 *
 * The manager a `Registerable` talks to is what `GameInstance.GetManager`
 * resolves in the current scene; it is passed in explicitly.
 */
module Registration {
  import opened Types

  class AutoRegisterManager<T(==)> {
    /** The `HashSet<T>`: adding twice keeps one copy, removing an absent element does nothing. */
    var registeredElements: set<T>

    constructor ()
      ensures registeredElements == {}
    {
      registeredElements := {};
    }

    method RegisterElement(element: T)
      modifies this
      ensures registeredElements == old(registeredElements) + {element}
    {
      registeredElements := registeredElements + {element};
    }

    method UnregisterElement(element: T)
      modifies this
      ensures registeredElements == old(registeredElements) - {element}
    {
      registeredElements := registeredElements - {element};
    }
  }

  /** Registering then unregistering an element that was absent leaves the set as it was. */
  method RegisterRoundTrip<T(==)>(m: AutoRegisterManager<T>, element: T)
    requires element !in m.registeredElements
    modifies m
    ensures m.registeredElements == old(m.registeredElements)
  {
    m.RegisterElement(element);
    m.UnregisterElement(element);
  }

  /** Registering an element twice is the same as registering it once. */
  method RegisterIsIdempotent<T(==)>(m: AutoRegisterManager<T>, element: T)
    modifies m
    ensures element in m.registeredElements
    ensures m.registeredElements == old(m.registeredElements) + {element}
  {
    m.RegisterElement(element);
    var once := m.registeredElements;
    m.RegisterElement(element);
    assert m.registeredElements == once;
  }

  /**
   * A `Registerable<ElementType, ManagerType>` component: `obj` is the
   * component itself and `elementType` its `ElementType` argument.
   */
  class Registerable {
    const obj: Obj
    const elementType: TypeId

    constructor (obj: Obj, elementType: TypeId)
      ensures this.obj == obj && this.elementType == elementType
    {
      this.obj := obj;
      this.elementType := elementType;
    }

    /** `this as ElementType`: the component itself, or null when it is not an `ElementType`. */
    function AsElement(): (r: Option<Obj>)
      ensures r.Some? <==> IsA(obj.ty, elementType)
      ensures r.Some? ==> r.value == obj
    {
      Cast(Some(obj), elementType)
    }

    /** `Awake`: registers with the resolved manager, which must exist (the call is not null-guarded). */
    method Awake(manager: AutoRegisterManager?<Option<Obj>>)
      requires manager != null
      modifies manager
      ensures manager.registeredElements == old(manager.registeredElements) + {AsElement()}
    {
      manager.RegisterElement(AsElement());
    }

    /** `OnDestroy`: unregisters, doing nothing when no manager is resolved. */
    method OnDestroy(manager: AutoRegisterManager?<Option<Obj>>)
      modifies manager
      ensures manager != null ==> manager.registeredElements == old(manager.registeredElements) - {AsElement()}
    {
      if manager != null {
        manager.UnregisterElement(AsElement());
      }
    }
  }

  /**
   * A component whose type is not its `ElementType` registers null, and two
   * such components share that one null entry.
   */
  method MismatchedElementsRegisterNull(a: Registerable, b: Registerable, manager: AutoRegisterManager<Option<Obj>>)
    requires !IsA(a.obj.ty, a.elementType) && !IsA(b.obj.ty, b.elementType)
    modifies manager
    ensures manager.registeredElements == old(manager.registeredElements) + {None}
  {
    a.Awake(manager);
    b.Awake(manager);
  }

  /**
   * A component's lifetime removes its element from the manager's set, so it
   * leaves the set as it found it when the element was not registered before.
   */
  method LifetimeLeavesNoTrace(r: Registerable, manager: AutoRegisterManager<Option<Obj>>)
    modifies manager
    ensures manager.registeredElements == old(manager.registeredElements) - {r.AsElement()}
    ensures old(r.AsElement() !in manager.registeredElements) ==>
              manager.registeredElements == old(manager.registeredElements)
  {
    r.Awake(manager);
    r.OnDestroy(manager);
  }

  /**
   * Mismatched components share the null entry, so destroying one of them
   * removes it although the other is still alive.
   */
  method SharedNullEntryRemovedByOne(a: Registerable, b: Registerable, manager: AutoRegisterManager<Option<Obj>>)
    requires !IsA(a.obj.ty, a.elementType) && !IsA(b.obj.ty, b.elementType)
    modifies manager
    ensures None !in manager.registeredElements
    ensures manager.registeredElements == old(manager.registeredElements) - {None}
  {
    a.Awake(manager);
    b.Awake(manager);
    a.OnDestroy(manager);
  }
}
