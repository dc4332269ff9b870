/**
 * agent/tools/registry.py: the class-level dictionary `_tools` from tool
 * name to tool instance, filled by the `register` decorator, handed out by
 * `get_tools` and rendered for the model by `get_for_llm`.
 *
 * The Dafny `ToolRegistry` object stands for the Python class object: the
 * dictionary is a class attribute, so `registry = ToolRegistry()` and every
 * other instance reach the same `ToolDict` through it.
 */
module Registry {

  /** A JSON value; objects keep their members in order, as Python dicts do. */
  datatype Json =
    | JNull
    | JBool(b: bool)
    | JNumber(n: int)
    | JString(s: string)
    | JArray(items: seq<Json>)
    | JObject(members: seq<(string, Json)>)

  /** A tool instance: its `name`, `description` and `parameters` schema. */
  datatype Tool = Tool(name: string, description: string, parameters: Json)

  /** A tool class; calling it with no arguments gives an instance with its class attributes. */
  datatype ToolClass = ToolClass(attributes: Tool)

  /** `tool_class()`. */
  function Instantiate(c: ToolClass): Tool {
    c.attributes
  }

  /** One entry of `get_for_llm`: `{"type": "function", "function": {name, description, parameters}}`. */
  function LlmEntry(t: Tool): Json {
    JObject([
      ("type", JString("function")),
      ("function", JObject([
        ("name", JString(t.name)),
        ("description", JString(t.description)),
        ("parameters", t.parameters)]))])
  }

  predicate Distinct(s: seq<string>) {
    forall i, j :: 0 <= i < j < |s| ==> s[i] != s[j]
  }

  /** The names of the registered tools, in registration order, repeats included. */
  function Names(tools: seq<Tool>): (r: seq<string>)
    ensures |r| == |tools|
    ensures forall i :: 0 <= i < |tools| ==> r[i] == tools[i].name
  {
    seq(|tools|, i requires 0 <= i < |tools| => tools[i].name)
  }

  /** The key order of a dict after assigning the keys `names` in turn: each at its first assignment. */
  function KeyOrder(names: seq<string>): seq<string>
    decreases |names|
  {
    if names == [] then []
    else
      var earlier := KeyOrder(names[..|names| - 1]);
      var last := names[|names| - 1];
      if last in earlier then earlier else earlier + [last]
  }

  /** The dict after assigning `t.name := t` for each registered tool in turn. */
  function Latest(tools: seq<Tool>): map<string, Tool>
    decreases |tools|
  {
    if tools == [] then map[]
    else
      var last := tools[|tools| - 1];
      Latest(tools[..|tools| - 1])[last.name := last]
  }

  /** A Python dict from tool name to tool: its key order and its entries. */
  class ToolDict {
    var keys: seq<string>
    var entries: map<string, Tool>

    ghost predicate Valid()
      reads this
    {
      && (forall k :: k in entries <==> k in keys)
      && Distinct(keys)
    }

    constructor ()
      ensures Valid() && keys == [] && entries == map[]
    {
      keys := [];
      entries := map[];
    }

    /** `d[key] = value`: a new key goes last, an existing key keeps its place. */
    method Put(key: string, value: Tool)
      requires Valid()
      modifies this
      ensures Valid()
      ensures entries == old(entries)[key := value]
      ensures keys == if key in old(entries) then old(keys) else old(keys) + [key]
    {
      if key !in entries {
        keys := keys + [key];
      }
      entries := entries[key := value];
    }

    /** `d.values()`, in key order. */
    function Values(): (r: seq<Tool>)
      reads this
      requires Valid()
      ensures |r| == |keys|
      ensures forall i :: 0 <= i < |keys| ==> r[i] == entries[keys[i]]
    {
      seq(|keys|, i reads this requires 0 <= i < |keys| && Valid() => entries[keys[i]])
    }
  }

  class ToolRegistry {
    /** `_tools`: one dict object, shared by the class and all its instances. */
    const tools: ToolDict
    /** The instances `register` has stored, in order. */
    ghost var registered: seq<Tool>

    ghost predicate Valid()
      reads this, tools
    {
      && tools.Valid()
      && tools.keys == KeyOrder(Names(registered))
      && tools.entries == Latest(registered)
    }

    constructor ()
      ensures Valid() && registered == [] && fresh(tools)
    {
      tools := new ToolDict();
      registered := [];
    }

    /** The decorator: instantiate, store under the tool's name, hand the class back. */
    method Register(toolClass: ToolClass) returns (r: ToolClass)
      requires Valid()
      modifies this, tools
      ensures Valid()
      ensures r == toolClass
      ensures registered == old(registered) + [Instantiate(toolClass)]
    {
      var tool := Instantiate(toolClass);
      tools.Put(tool.name, tool);
      registered := registered + [tool];
      assert registered[..|registered| - 1] == old(registered);
      assert Names(registered)[..|registered| - 1] == Names(old(registered));
      r := toolClass;
    }

    /** `get_tools`: the registry's own dict, not a copy. */
    method GetTools() returns (d: ToolDict)
      ensures d == tools
    {
      d := tools;
    }

    /** `get_for_llm`: one entry per stored tool, in the dict's key order. */
    function ForLlm(): (r: seq<Json>)
      reads this, tools
      requires Valid()
      ensures |r| == |tools.keys|
      ensures forall i :: 0 <= i < |r| ==> r[i] == LlmEntry(Latest(registered)[KeyOrder(Names(registered))[i]])
    {
      var values := tools.Values();
      seq(|values|, i requires 0 <= i < |values| => LlmEntry(values[i]))
    }
  }

  // ---------------------------------------------------------------- lemmas

  /** Every name appears once in the key order, and exactly the registered names appear. */
  lemma {:induction false} KeyOrderDistinct(names: seq<string>)
    ensures Distinct(KeyOrder(names))
    ensures forall n :: n in KeyOrder(names) <==> n in names
    decreases |names|
  {
    if names != [] {
      var init := names[..|names| - 1];
      KeyOrderDistinct(init);
      assert names == init + [names[|names| - 1]];
    }
  }

  /** Registering more tools never moves a name already present: the old order is a prefix of the new. */
  lemma {:induction false} KeyOrderPrefix(names: seq<string>, more: seq<string>)
    ensures var before, after := KeyOrder(names), KeyOrder(names + more);
      |before| <= |after| && after[..|before|] == before
    decreases |more|
  {
    if more == [] {
      assert names + more == names;
    } else {
      var init := more[..|more| - 1];
      KeyOrderPrefix(names, init);
      assert (names + more)[..|names + more| - 1] == names + init;
    }
  }

  /** The dict holds a name exactly when some registered tool had it. */
  lemma {:induction false} LatestDomain(tools: seq<Tool>, n: string)
    ensures n in Latest(tools) <==> n in Names(tools)
    decreases |tools|
  {
    if tools != [] {
      var init := tools[..|tools| - 1];
      LatestDomain(init, n);
      assert Names(tools) == Names(init) + [tools[|tools| - 1].name];
    }
  }

  /** A later registration under the same name replaces the earlier one: the last one wins. */
  lemma {:induction false} LatestIsLast(tools: seq<Tool>, k: nat)
    requires k < |tools|
    requires forall j :: k < j < |tools| ==> tools[j].name != tools[k].name
    ensures tools[k].name in Latest(tools) && Latest(tools)[tools[k].name] == tools[k]
    decreases |tools|
  {
    if k < |tools| - 1 {
      LatestIsLast(tools[..|tools| - 1], k);
    }
  }
}
