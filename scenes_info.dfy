/**
 * `ScenesInfo`: the asset holding the build scenes' names, looked up by name
 * (`Array.IndexOf`) and by build index (bounds-checked indexing).
 */
module Scenes {

  /** `Array.IndexOf(names, name)`: the first index holding `name`, or -1. */
  function IndexOf(names: seq<string>, name: string): (r: int)
    ensures r == -1 <==> name !in names
    ensures r != -1 ==> 0 <= r < |names| && names[r] == name && name !in names[..r]
  {
    if names == [] then -1
    else if names[0] == name then 0
    else
      var k := IndexOf(names[1..], name);
      assert names[1..] == names[1..][..|names| - 1];
      if k == -1 then -1
      else
        assert names[..k + 1] == [names[0]] + names[1..][..k];
        k + 1
  }

  class ScenesInfo {
    const sceneNames: seq<string>

    constructor (sceneNames: seq<string>)
      ensures this.sceneNames == sceneNames
    {
      this.sceneNames := sceneNames;
    }

    /** `GetScene`: the build index of the first scene with that name, or -1. */
    method GetScene(sceneName: string) returns (r: int)
      ensures r == IndexOf(sceneNames, sceneName)
      ensures r == -1 <==> sceneName !in sceneNames
    {
      var i := 0;
      while i < |sceneNames|
        invariant 0 <= i <= |sceneNames|
        invariant sceneName !in sceneNames[..i]
      {
        if sceneNames[i] == sceneName {
          return i;
        }
        assert sceneNames[..i + 1] == sceneNames[..i] + [sceneNames[i]];
        i := i + 1;
      }
      assert sceneNames[..i] == sceneNames;
      r := -1;
    }

    /** `GetSceneName`: the name at a build index the caller guarantees is in range. */
    function GetSceneName(sceneBuildIndex: int): (r: string)
      requires 0 <= sceneBuildIndex < |sceneNames|
      ensures r == sceneNames[sceneBuildIndex] && r in sceneNames
      ensures IndexOf(sceneNames, r) <= sceneBuildIndex
    {
      IndexOfNameAtMost(sceneNames, sceneBuildIndex);
      sceneNames[sceneBuildIndex]
    }
  }

  /** No two build scenes share a name. */
  predicate Distinct(names: seq<string>) {
    forall i, j :: 0 <= i < j < |names| ==> names[i] != names[j]
  }

  /**
   * Looking up the name stored at index `i` finds `i` or an earlier duplicate;
   * with distinct names it finds `i` itself.
   */
  lemma IndexOfNameAtMost(names: seq<string>, i: int)
    requires 0 <= i < |names|
    ensures 0 <= IndexOf(names, names[i]) <= i
    ensures Distinct(names) ==> IndexOf(names, names[i]) == i
  {
  }

  /** A name that is found reads back unchanged through its index. */
  lemma FoundIndexReadsBackName(info: ScenesInfo, sceneName: string)
    requires IndexOf(info.sceneNames, sceneName) != -1
    ensures info.GetSceneName(IndexOf(info.sceneNames, sceneName)) == sceneName
  {
  }
}
