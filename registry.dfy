/**
 * The type-indexed manager lookup shared by `GameInstance.GetPersistentManager`
 * and `GameflowManager.GetManager`: scan the array in order and return the
 * first entry whose runtime type is the queried type or, when subclasses are
 * considered, a strict subclass of it. An earlier subclass entry therefore
 * wins over a later exact match.
 */
module ManagerRegistry {
  import opened Types

  /** The test made on each entry by the lookup loop. */
  predicate Matches(ty: TypeId, query: TypeId, considerSubclass: bool) {
    ty == query || (considerSubclass && IsSubclassOf(ty, query))
  }

  /** Index `k` holds the first matching entry. */
  predicate FirstMatchAt(entries: seq<Obj>, query: TypeId, considerSubclass: bool, k: int) {
    0 <= k < |entries|
    && Matches(entries[k].ty, query, considerSubclass)
    && forall j :: 0 <= j < k ==> !Matches(entries[j].ty, query, considerSubclass)
  }

  /** Specification of the lookup: the first matching entry, or null. */
  function Resolve(entries: seq<Obj>, query: TypeId, considerSubclass: bool): Option<Obj>
  {
    if entries == [] then None
    else if Matches(entries[0].ty, query, considerSubclass) then Some(entries[0])
    else Resolve(entries[1..], query, considerSubclass)
  }

  /**
   * The lookup loop (`foreach (... manager in managers) if (...) return manager;
   * return null;`).
   */
  method Lookup(entries: seq<Obj>, query: TypeId, considerSubclass: bool) returns (r: Option<Obj>)
    ensures r == Resolve(entries, query, considerSubclass)
    ensures r.Some? <==> exists k :: FirstMatchAt(entries, query, considerSubclass, k)
  {
    var i := 0;
    while i < |entries|
      invariant 0 <= i <= |entries|
      invariant forall j :: 0 <= j < i ==> !Matches(entries[j].ty, query, considerSubclass)
      invariant Resolve(entries, query, considerSubclass) == Resolve(entries[i..], query, considerSubclass)
    {
      if Matches(entries[i].ty, query, considerSubclass) {
        assert FirstMatchAt(entries, query, considerSubclass, i);
        r := Some(entries[i]);
        return;
      }
      assert entries[i..][1..] == entries[i + 1..];
      i := i + 1;
    }
    r := None;
  }

  /**
   * Resolve is exactly first-match search: it returns entry `k` iff `k` is the
   * first matching index, and null iff no entry matches.
   */
  lemma {:induction false} ResolveIsFirstMatch(entries: seq<Obj>, query: TypeId, considerSubclass: bool)
    ensures Resolve(entries, query, considerSubclass).None? <==>
              forall j :: 0 <= j < |entries| ==> !Matches(entries[j].ty, query, considerSubclass)
    ensures forall k :: FirstMatchAt(entries, query, considerSubclass, k) ==>
              Resolve(entries, query, considerSubclass) == Some(entries[k])
    ensures Resolve(entries, query, considerSubclass).Some? ==>
              exists k :: FirstMatchAt(entries, query, considerSubclass, k)
  {
    if entries != [] && !Matches(entries[0].ty, query, considerSubclass) {
      var rest := entries[1..];
      ResolveIsFirstMatch(rest, query, considerSubclass);
      forall k | FirstMatchAt(entries, query, considerSubclass, k)
        ensures FirstMatchAt(rest, query, considerSubclass, k - 1)
      {
      }
      if Resolve(rest, query, considerSubclass).Some? {
        var k :| FirstMatchAt(rest, query, considerSubclass, k);
        assert FirstMatchAt(entries, query, considerSubclass, k + 1);
      }
    } else if entries != [] {
      assert FirstMatchAt(entries, query, considerSubclass, 0);
    }
  }

  /**
   * Whatever the lookup returns is an entry of the array whose runtime type is
   * the query or a strict subclass of it; without `considerSubclass` it is the
   * query exactly.
   */
  lemma {:induction false} ResolveReturnsRelatedEntry(entries: seq<Obj>, query: TypeId, considerSubclass: bool)
    requires Resolve(entries, query, considerSubclass).Some?
    ensures Resolve(entries, query, considerSubclass).value in entries
    ensures IsA(Resolve(entries, query, considerSubclass).value.ty, query)
    ensures !considerSubclass ==> Resolve(entries, query, considerSubclass).value.ty == query
  {
    if !Matches(entries[0].ty, query, considerSubclass) {
      ResolveReturnsRelatedEntry(entries[1..], query, considerSubclass);
    }
  }

  /**
   * Exact matches are not preferred: a subclass entry that comes before an
   * exact entry, with nothing matching before it, is the one returned.
   */
  lemma EarlierSubclassWins(entries: seq<Obj>, query: TypeId, i: nat, j: nat)
    requires i < j < |entries|
    requires IsSubclassOf(entries[i].ty, query) && entries[j].ty == query
    requires forall k :: 0 <= k < i ==> !Matches(entries[k].ty, query, true)
    ensures Resolve(entries, query, true) == Some(entries[i])
    ensures entries[i] != entries[j]
  {
    assert FirstMatchAt(entries, query, true, i);
    ResolveIsFirstMatch(entries, query, true);
  }

  /** The `as T` applied to the lookup's result never turns a hit into null. */
  lemma CastOfResolveKeepsResult(entries: seq<Obj>, query: TypeId, considerSubclass: bool)
    ensures Cast(Resolve(entries, query, considerSubclass), query) == Resolve(entries, query, considerSubclass)
  {
    if Resolve(entries, query, considerSubclass).Some? {
      ResolveReturnsRelatedEntry(entries, query, considerSubclass);
    }
  }

  /** A hit with exact matching is also a hit with subclass matching, but not necessarily the same entry. */
  lemma {:induction false} ExactHitImpliesSubclassHit(entries: seq<Obj>, query: TypeId)
    requires Resolve(entries, query, false).Some?
    ensures Resolve(entries, query, true).Some?
  {
    if entries[0].ty != query {
      ExactHitImpliesSubclassHit(entries[1..], query);
    }
  }
}
