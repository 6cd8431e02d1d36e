/**
 * The block registry of the data tree (src/data/map/block-registry.ts): a
 * dictionary from block type names to their shared properties, filled with
 * the basic blocks of src/config/basic-blocks.ts when loaded and when cleared.
 * The dictionary is a plain JavaScript object, so the `in` test of
 * `hasBlockType` also sees the names the object inherits from
 * `Object.prototype`.
 */
module BlockRegistry {
  import opened Common

  /** The shared properties of a block type. */
  datatype Props = Props(hardness: real)

  /** The basic blocks, in order: `air` with hardness -1 and `dirt` with hardness 0.5. */
  const BasicBlocks: seq<(string, Props)> := [("air", Props(-1.0)), ("dirt", Props(0.5))]

  /** `m` after registering each entry of `entries` in order. */
  function WithAll(m: map<string, Props>, entries: seq<(string, Props)>): map<string, Props>
  {
    if entries == [] then m
    else
      var e := entries[|entries| - 1];
      WithAll(m, entries[..|entries| - 1])[e.0 := e.1]
  }

  /** `entries[i]` is the last registration of the name `k`. */
  predicate LastRegistration(entries: seq<(string, Props)>, k: string, i: int)
  {
    0 <= i < |entries| && entries[i].0 == k && forall j :: i < j < |entries| ==> entries[j].0 != k
  }

  /**
   * After registering `entries`, a name is present iff it was present or is
   * registered, and it maps to the properties of its last registration
   * (later registrations overwrite earlier ones).
   */
  lemma {:induction false} WithAllLookup(m: map<string, Props>, entries: seq<(string, Props)>, k: string)
    ensures k in WithAll(m, entries) <==> k in m || exists i :: 0 <= i < |entries| && entries[i].0 == k
    ensures forall i :: LastRegistration(entries, k, i) ==> WithAll(m, entries)[k] == entries[i].1
    ensures (forall i :: 0 <= i < |entries| ==> entries[i].0 != k) && k in m ==> WithAll(m, entries)[k] == m[k]
  {
    if entries != [] {
      var n := |entries| - 1;
      WithAllLookup(m, entries[..n], k);
      forall i | LastRegistration(entries, k, i)
        ensures WithAll(m, entries)[k] == entries[i].1
      {
        if i < n {
          assert entries[..n][i] == entries[i];
          assert forall j :: i < j < n ==> entries[..n][j] == entries[j];
        }
      }
      if exists i :: 0 <= i < |entries| && entries[i].0 == k {
        var i :| 0 <= i < |entries| && entries[i].0 == k;
        if i < n {
          assert entries[..n][i] == entries[i];
        }
      }
    }
  }

  /** The registry right after loading or clearing: exactly `air` and `dirt`. */
  lemma BasicRegistry()
    ensures WithAll(map[], BasicBlocks) == map["air" := Props(-1.0), "dirt" := Props(0.5)]
  {
    assert BasicBlocks[..1] == [("air", Props(-1.0))];
    assert BasicBlocks[..1][..0] == [];
  }

  class Registry {
    /** The registered block types and their shared properties. */
    var propertiesMap: map<string, Props>

    /** An empty registry (before the load-time registration). */
    constructor()
      ensures propertiesMap == map[]
    {
      propertiesMap := map[];
    }

    /** `registerBlockType`: add the type, or replace its properties. */
    method RegisterBlockType(blockType: string, sharedProperties: Props)
      modifies this
      ensures propertiesMap == old(propertiesMap)[blockType := sharedProperties]
    {
      propertiesMap := propertiesMap[blockType := sharedProperties];
    }

    /** Register each entry in order. */
    method RegisterAll(entries: seq<(string, Props)>)
      modifies this
      ensures propertiesMap == WithAll(old(propertiesMap), entries)
    {
      var i := 0;
      while i < |entries|
        invariant 0 <= i <= |entries|
        invariant propertiesMap == WithAll(old(propertiesMap), entries[..i])
      {
        assert entries[..i + 1][..i] == entries[..i];
        RegisterBlockType(entries[i].0, entries[i].1);
        i := i + 1;
      }
      assert entries[..i] == entries;
    }

    /**
     * `hasBlockType` as written: the `in` operator is true for a registered
     * type and also for a name inherited from `Object.prototype`.
     */
    predicate HasBlockType(blockType: string)
      reads this
    {
      blockType in propertiesMap || blockType in InheritedNames
    }

    /** `hasBlockType` as intended: only registered types. */
    predicate HasOwnBlockType(blockType: string)
      reads this
    {
      blockType in propertiesMap
    }

    /** `getBlockTypeProperties`: the registered properties, or `undefined`. */
    function GetBlockTypeProperties(blockType: string): (r: Option<Props>)
      reads this
      ensures r.Some? <==> HasOwnBlockType(blockType)
      ensures r.Some? ==> r.value == propertiesMap[blockType]
    {
      if blockType in propertiesMap then Some(propertiesMap[blockType]) else None
    }

    /** `clear`: forget every type, then register the basic blocks again. */
    method Clear()
      modifies this
      ensures propertiesMap == WithAll(map[], BasicBlocks)
    {
      propertiesMap := map[];
      RegisterAll(BasicBlocks);
    }
  }

  /** The load-time registry: the singleton with every basic block registered. */
  method Load() returns (registry: Registry)
    ensures fresh(registry)
    ensures registry.propertiesMap == WithAll(map[], BasicBlocks)
  {
    registry := new Registry();
    registry.RegisterAll(BasicBlocks);
  }

  /**
   * `hasBlockType` answers true for `"constructor"` on a registry that holds
   * only the basic blocks, although that type was never registered.
   */
  lemma HasBlockTypeInherited(r: Registry)
    requires r.propertiesMap == WithAll(map[], BasicBlocks)
    ensures r.HasBlockType("constructor") && !r.HasOwnBlockType("constructor")
  {
    BasicRegistry();
  }

  /**
   * `hasOwnBlockType` agrees with `getBlockTypeProperties`, and, for every
   * name that is not inherited, with the `in` test as written.
   */
  lemma HasOwnBlockTypeAgrees(r: Registry, blockType: string)
    ensures r.HasOwnBlockType(blockType) <==> r.GetBlockTypeProperties(blockType).Some?
    ensures blockType !in InheritedNames ==> (r.HasBlockType(blockType) <==> r.HasOwnBlockType(blockType))
  {
  }

  /**
   * The registry tests: after clearing, the basic types are present, a test
   * type registered before is gone, and registering a type twice keeps the
   * second properties.
   */
  lemma ClearThenRegister(m: map<string, Props>, p: Props, q: Props)
    ensures var cleared := WithAll(map[], BasicBlocks);
      "air" in cleared && "dirt" in cleared && "testBlock" !in cleared
      && cleared["testBlock" := p]["testBlock" := q]["testBlock"] == q
  {
    BasicRegistry();
  }
}
