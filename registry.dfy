/**
 * The tool registry: a dictionary from tool name to tool, in registration
 * order. Registering a name again replaces its tool in place; unregistering
 * an unknown name does nothing.
 */
module Registry {
  import opened Wrappers
  import opened Json
  import opened OrderedMaps
  import opened ToolBase

  /** The tools of one category, in order. */
  function OfType(tools: seq<Tool>, t: ToolType): (r: seq<Tool>)
    ensures |r| <= |tools|
    ensures forall x :: x in r <==> x in tools && x.toolType == t
  {
    if tools == [] then []
    else OfType(tools[..|tools| - 1], t) + (if tools[|tools| - 1].toolType == t then [tools[|tools| - 1]] else [])
  }

  /** The schemas of the tools, in order. */
  function Schemas(tools: seq<Tool>): (r: seq<Json>)
    ensures |r| == |tools|
    ensures forall i :: 0 <= i < |tools| ==> r[i] == tools[i].schema
  {
    if tools == [] then [] else Schemas(tools[..|tools| - 1]) + [tools[|tools| - 1].schema]
  }

  /** Each entry is a tool filed under its own name. */
  predicate FiledByName(e: (string, Tool))
  {
    e.0 == e.1.name
  }

  class ToolRegistry {
    /** `_tools`: name and tool, in registration order. */
    var entries: seq<(string, Tool)>

    ghost predicate Valid()
      reads this
    {
      UniqueKeys(entries) && forall i :: 0 <= i < |entries| ==> FiledByName(entries[i])
    }

    constructor()
      ensures Valid() && entries == []
    {
      entries := [];
    }

    /** `get`. */
    function Get(name: string): Option<Tool>
      reads this
    {
      Lookup(entries, name)
    }

    /** `get_all`. */
    function GetAll(): seq<Tool>
      reads this
    {
      Values(entries)
    }

    /** `get_schemas`. */
    function GetSchemas(): seq<Json>
      reads this
    {
      Schemas(Values(entries))
    }

    /** `get_by_type`. */
    function GetByType(t: ToolType): seq<Tool>
      reads this
    {
      OfType(Values(entries), t)
    }

    /** `list_names`. */
    function ListNames(): seq<string>
      reads this
    {
      Keys(entries)
    }

    /**
     * `register`: the tool is found under its name afterwards, every other
     * name keeps its tool, and the name is listed last when it is new or
     * keeps its place when it replaces an earlier tool.
     */
    method Register(tool: Tool)
      requires Valid()
      modifies this
      ensures Valid()
      ensures entries == Put(old(entries), tool.name, tool)
      ensures Get(tool.name) == Some(tool)
      ensures forall n :: n != tool.name ==> Get(n) == old(Get(n))
      ensures ListNames() == if old(Get(tool.name)).Some? then old(ListNames()) else old(ListNames()) + [tool.name]
    {
      PutKeys(entries, tool.name, tool);
      PutLookup(entries, tool.name, tool);
      PutKeepsAll(entries, tool.name, tool, FiledByName);
      entries := Put(entries, tool.name, tool);
    }

    /**
     * `unregister`: the name is no longer found, every other name keeps its
     * tool, and an unknown name leaves the registry as it was.
     */
    method Unregister(name: string)
      requires Valid()
      modifies this
      ensures Valid()
      ensures entries == Remove(old(entries), name)
      ensures Get(name).None?
      ensures forall n :: n != name ==> Get(n) == old(Get(n))
      ensures old(Get(name)).None? ==> entries == old(entries)
      ensures |ListNames()| == |old(ListNames())| - (if old(Get(name)).Some? then 1 else 0)
    {
      RemoveKeys(entries, name);
      RemoveLookup(entries, name);
      RemoveKeepsAll(entries, name, FiledByName);
      if HasKey(entries, name) {
        entries := Remove(entries, name);
      } else {
        RemoveAbsent(entries, name);
      }
    }
  }

  /**
   * The listings agree: names, tools and schemas come in the same order and
   * number, each name is its tool's name, and a name is listed exactly when
   * `get` finds a tool under it.
   */
  lemma ListingsAgree(r: ToolRegistry)
    requires r.Valid()
    ensures |r.ListNames()| == |r.GetAll()| == |r.GetSchemas()|
    ensures forall i :: 0 <= i < |r.GetAll()| ==>
      r.ListNames()[i] == r.GetAll()[i].name && r.GetSchemas()[i] == r.GetAll()[i].schema
    ensures forall n :: n in r.ListNames() <==> r.Get(n).Some?
  {
    forall n | r.Get(n).Some? ensures n in r.ListNames() {
      var i :| 0 <= i < |r.entries| && r.entries[i] == (n, r.Get(n).value);
      assert r.ListNames()[i] == n;
    }
    forall n | n in r.ListNames() ensures r.Get(n).Some? {
      var i :| 0 <= i < |r.ListNames()| && r.ListNames()[i] == n;
      assert r.entries[i].0 == n;
    }
  }

  /** `get_by_type` returns exactly the registered tools of that category, and `get` finds each under its name. */
  lemma ByTypeSpec(r: ToolRegistry, t: ToolType)
    requires r.Valid()
    ensures forall x :: x in r.GetByType(t) <==> x in r.GetAll() && x.toolType == t
    ensures forall x :: x in r.GetByType(t) ==> r.Get(x.name) == Some(x)
  {
    forall x | x in r.GetByType(t) ensures r.Get(x.name) == Some(x) {
      assert x in r.GetAll();
      var i :| 0 <= i < |r.GetAll()| && r.GetAll()[i] == x;
      assert |r.GetAll()| == |r.entries| && r.entries[i].1 == x;
      assert FiledByName(r.entries[i]);
      assert HasKey(r.entries, x.name);
      var j :| 0 <= j < |r.entries| && r.entries[j] == (x.name, r.Get(x.name).value);
      assert i == j;
    }
  }
}
