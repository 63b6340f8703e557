/**
 * Runtime types of the framework's objects.
 *
 * A C# class is identified by its inheritance chain, written from the root
 * class down to the class itself (single inheritance). `t` is a strict
 * subclass of `u` (.NET's `Type.IsSubclassOf`) exactly when `u`'s chain is a
 * strict prefix of `t`'s chain. The `as` cast and the `is` test accept the
 * type itself or any subclass.
 */
module Types {

  datatype Option<+T> = None | Some(value: T)

  /** A class, as the chain of class names from the root down to itself. */
  type TypeId = seq<string>

  const ComponentType: TypeId := ["Object", "Component"]
  const MonoBehaviourType: TypeId := ComponentType + ["Behaviour", "MonoBehaviour"]
  const ManagerType: TypeId := MonoBehaviourType + ["Manager"]
  const PersistentManagerType: TypeId := MonoBehaviourType + ["PersistentManager"]

  /** `t.IsSubclassOf(u)`: strict, so a type is never a subclass of itself. */
  predicate IsSubclassOf(t: TypeId, u: TypeId) {
    |u| < |t| && t[..|u|] == u
  }

  /** What `x is U` / `x as U` test of an object whose runtime type is `t`. */
  predicate IsA(t: TypeId, u: TypeId) {
    t == u || IsSubclassOf(t, u)
  }

  /** A handle on a Unity object: its identity and its runtime type. */
  datatype Obj = Obj(id: nat, ty: TypeId)

  /** `o as U`: the object itself when its runtime type is U or a subclass, else null. */
  function Cast(o: Option<Obj>, u: TypeId): (r: Option<Obj>)
    ensures r.Some? ==> o == r && IsA(r.value.ty, u)
    ensures o.Some? && IsA(o.value.ty, u) ==> r == o
  {
    if o.Some? && IsA(o.value.ty, u) then o else None
  }

  lemma SubclassIsIrreflexive(t: TypeId)
    ensures !IsSubclassOf(t, t)
  {
  }

  lemma SubclassIsTransitive(t: TypeId, u: TypeId, v: TypeId)
    requires IsSubclassOf(t, u) && IsSubclassOf(u, v)
    ensures IsSubclassOf(t, v)
  {
    assert t[..|v|] == t[..|u|][..|v|];
  }

  lemma SubclassIsAsymmetric(t: TypeId, u: TypeId)
    requires IsSubclassOf(t, u)
    ensures !IsSubclassOf(u, t)
  {
  }
}
