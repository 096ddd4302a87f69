/** Module names and the numbers that stand for them. */
module ModuleIds {
  import opened Segments
  import opened ModuleIdResolvers
  import opened LoaderState

  class ModuleIdProvider {
    var nextId: nat
    var strModuleIdToIntModuleId: map<string, nat>
    var intModuleIdToStrModuleId: seq<string>

    /** The two tables are inverse to each other, and the reserved names have the reserved numbers. */
    ghost predicate Valid()
      reads this
    {
      && FIRST_FREE_ID <= nextId == |intModuleIdToStrModuleId|
      && intModuleIdToStrModuleId[..FIRST_FREE_ID] == ["exports", "module", "require"]
      && Inverse()
    }

    ghost predicate Inverse()
      reads this
    {
      && nextId == |intModuleIdToStrModuleId|
      && (forall s :: s in strModuleIdToIntModuleId ==>
            strModuleIdToIntModuleId[s] < nextId && intModuleIdToStrModuleId[strModuleIdToIntModuleId[s]] == s)
      && (forall id :: 0 <= id < nextId ==>
            intModuleIdToStrModuleId[id] in strModuleIdToIntModuleId
            && strModuleIdToIntModuleId[intModuleIdToStrModuleId[id]] == id)
    }

    constructor ()
      ensures Valid() && nextId == FIRST_FREE_ID
    {
      nextId := 0;
      strModuleIdToIntModuleId := map[];
      intModuleIdToStrModuleId := [];
      new;
      var e := GetModuleId("exports");
      var m := GetModuleId("module");
      var r := GetModuleId("require");
    }

    /** A known name keeps its number; a new name gets the next one, and no other name changes. */
    method GetModuleId(strModuleId: string) returns (id: nat)
      requires Inverse()
      modifies this
      ensures Inverse() && id < nextId && intModuleIdToStrModuleId[id] == strModuleId
      ensures if strModuleId in old(strModuleIdToIntModuleId)
              then intModuleIdToStrModuleId == old(intModuleIdToStrModuleId)
              else intModuleIdToStrModuleId == old(intModuleIdToStrModuleId) + [strModuleId]
      ensures old(Valid()) ==> Valid()
    {
      if strModuleId in strModuleIdToIntModuleId {
        id := strModuleIdToIntModuleId[strModuleId];
      } else {
        id := nextId;
        nextId := nextId + 1;
        strModuleIdToIntModuleId := strModuleIdToIntModuleId[strModuleId := id];
        intModuleIdToStrModuleId := intModuleIdToStrModuleId + [strModuleId];
      }
    }

    /** The dependency object stands for the dependency string, as seen from fromModuleId. */
    ghost predicate Means(fromModuleId: string, dependency: string, d: Dependency)
      reads this
    {
      match d
      case Exports => dependency == "exports"
      case ThisModule => dependency == "module"
      case Require => dependency == "require"
      case Regular(id) =>
        && '!' !in dependency && dependency != "exports" && dependency != "module" && dependency != "require"
        && id < |intModuleIdToStrModuleId| && intModuleIdToStrModuleId[id] == ResolvedId(fromModuleId, dependency)
      case Plugin(id, pluginId, param) =>
        exists bang :: 0 <= bang < |dependency| && dependency[bang] == '!' && '!' !in dependency[..bang]
          && param == ResolvedId(fromModuleId, dependency[bang + 1..])
          && id < |intModuleIdToStrModuleId| && pluginId < |intModuleIdToStrModuleId|
          && intModuleIdToStrModuleId[pluginId] == ResolvedId(fromModuleId, dependency[..bang])
          && intModuleIdToStrModuleId[id] == intModuleIdToStrModuleId[pluginId] + "!" + param
    }

    /** `_normalizeDependency` */
    method NormalizeDependency(fromModuleId: string, dependency: string) returns (d: Dependency)
      requires Valid()
      modifies this
      ensures Valid() && old(intModuleIdToStrModuleId) <= intModuleIdToStrModuleId
      ensures Means(fromModuleId, dependency, d) && d.Below(nextId)
    {
      if dependency == "exports" {
        return Exports;
      }
      if dependency == "module" {
        return ThisModule;
      }
      if dependency == "require" {
        return Require;
      }
      var bangIndex := IndexOf(dependency, '!');
      if bangIndex >= 0 {
        d := NormalizePlugin(fromModuleId, dependency, bangIndex);
      } else {
        var str := ResolveModule(fromModuleId, dependency);
        var id := GetModuleId(str);
        d := Regular(id);
      }
    }

    /** The resource behind the first '!' and the plugin before it. */
    method NormalizePlugin(fromModuleId: string, dependency: string, bangIndex: nat) returns (d: Dependency)
      requires Valid() && bangIndex < |dependency| && dependency[bangIndex] == '!' && '!' !in dependency[..bangIndex]
      modifies this
      ensures Valid() && old(intModuleIdToStrModuleId) <= intModuleIdToStrModuleId
      ensures Means(fromModuleId, dependency, d) && d.Below(nextId)
    {
      hide ResolvedId;
      var strPluginId := ResolveModule(fromModuleId, dependency[..bangIndex]);
      var pluginParam := ResolveModule(fromModuleId, dependency[bangIndex + 1..]);
      var dependencyId := GetModuleId(strPluginId + "!" + pluginParam);
      var pluginId := GetModuleId(strPluginId);
      d := Plugin(dependencyId, pluginId, pluginParam);
    }

    /** `_normalizeDependencies`: one dependency object for each string, in order. */
    method NormalizeDependencies(fromModuleId: string, dependencies: seq<string>) returns (result: seq<Dependency>)
      requires Valid()
      modifies this
      ensures Valid() && |result| == |dependencies| && old(intModuleIdToStrModuleId) <= intModuleIdToStrModuleId
      ensures forall k :: 0 <= k < |result| ==>
                Means(fromModuleId, dependencies[k], result[k]) && result[k].Below(nextId)
    {
      result := [];
      for i := 0 to |dependencies|
        invariant Valid() && |result| == i && old(intModuleIdToStrModuleId) <= intModuleIdToStrModuleId
        invariant forall k :: 0 <= k < i ==> Means(fromModuleId, dependencies[k], result[k]) && result[k].Below(nextId)
      {
        label before:
        var d := NormalizeDependency(fromModuleId, dependencies[i]);
        forall k | 0 <= k < i ensures Means(fromModuleId, dependencies[k], result[k]) {
          StillMeans@before(fromModuleId, dependencies[k], result[k]);
        }
        result := result + [d];
      }
    }

    twostate lemma StillMeans(new fromModuleId: string, new dependency: string, new d: Dependency)
      requires old(Means(fromModuleId, dependency, d)) && old(intModuleIdToStrModuleId) <= intModuleIdToStrModuleId
      ensures Means(fromModuleId, dependency, d)
    {
    }
  }

  /** Two dependencies have the same number if and only if they name the same module. */
  lemma NumbersAreNames(provider: ModuleIdProvider, a: nat, b: nat)
    requires provider.Valid() && a < provider.nextId && b < provider.nextId
    ensures a == b <==> provider.intModuleIdToStrModuleId[a] == provider.intModuleIdToStrModuleId[b]
  {
    var names := provider.intModuleIdToStrModuleId;
    assert provider.strModuleIdToIntModuleId[names[a]] == a && provider.strModuleIdToIntModuleId[names[b]] == b;
  }

  method IndexOf(s: string, c: char) returns (index: int)
    ensures index < 0 ==> c !in s
    ensures index >= 0 ==> index < |s| && s[index] == c && c !in s[..index]
  {
    for i := 0 to |s|
      invariant c !in s[..i]
    {
      if s[i] == c {
        return i;
      }
      assert s[..i + 1] == s[..i] + [s[i]];
    }
    assert s[..|s|] == s;
    return -1;
  }
}
