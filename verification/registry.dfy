/** The tool registry of the agent runtime (nanobot/agent/tools/registry.py):
    an insertion-ordered table from tool name to tool, and an `execute` that
    turns every failure into text instead of an exception. */
module Registry {
  import opened Common

  /** Tool arguments as the provider issued them; values are kept as text. */
  type Params = map<string, string>

  /** What running a tool body did: returned a string, or raised. */
  datatype Outcome = Ok(text: string) | Raise(message: string)

  /** A registered tool. Its validator and body are the tool class's
      `validate_params` and `execute`, abstracted as functions. */
  datatype Tool = Tool(
    name: string,
    schema: string,
    validate: Params -> seq<string>,
    body: Params -> Outcome)

  /** The registry's table. Python's dict keeps keys in first-insertion
      order, so the table is a sequence of tools with distinct names. */
  datatype ToolTable = ToolTable(entries: seq<Tool>)

  function Names(entries: seq<Tool>): (r: seq<string>)
    ensures |r| == |entries|
    ensures forall i :: 0 <= i < |entries| ==> r[i] == entries[i].name
  {
    if entries == [] then [] else [entries[0].name] + Names(entries[1..])
  }

  predicate DistinctNames(entries: seq<Tool>) {
    forall i, j :: 0 <= i < j < |entries| ==> entries[i].name != entries[j].name
  }

  /** The invariant a dict maintains: one entry per name. */
  predicate Valid(reg: ToolTable) {
    DistinctNames(reg.entries)
  }

  const Empty: ToolTable := ToolTable([])

  /** Position of the entry named `name`, if any. */
  function IndexOf(entries: seq<Tool>, name: string): (r: Option<nat>)
    ensures r.Some? ==> r.value < |entries| && entries[r.value].name == name
    ensures r.Some? ==> forall k :: 0 <= k < r.value ==> entries[k].name != name
    ensures r.None? <==> forall k :: 0 <= k < |entries| ==> entries[k].name != name
  {
    if entries == [] then None
    else if entries[0].name == name then Some(0)
    else match IndexOf(entries[1..], name)
      case None => None
      case Some(i) => Some(i + 1)
  }

  /** `registry.get(name)`. */
  function Get(reg: ToolTable, name: string): (r: Option<Tool>)
    ensures r.Some? <==> name in Names(reg.entries)
    ensures r.Some? ==> r.value in reg.entries && r.value.name == name
  {
    match IndexOf(reg.entries, name)
    case None => None
    case Some(i) => Some(reg.entries[i])
  }

  /** `registry.has(name)` and `name in registry`. */
  predicate Has(reg: ToolTable, name: string) {
    Get(reg, name).Some?
  }

  /** `registry.tool_names`. */
  function ToolNames(reg: ToolTable): seq<string> {
    Names(reg.entries)
  }

  /** `len(registry)`. */
  function Size(reg: ToolTable): nat {
    |reg.entries|
  }

  /** `registry.get_definitions()`: one schema per tool, in table order. */
  function Definitions(reg: ToolTable): (r: seq<string>)
    ensures |r| == |ToolNames(reg)|
    ensures forall i :: 0 <= i < |r| ==>
      Get(reg, ToolNames(reg)[i]).Some? && r[i] == reg.entries[i].schema
  {
    seq(|reg.entries|, i requires 0 <= i < |reg.entries| => reg.entries[i].schema)
  }

  /** `registry.register(tool)`: a new name goes to the end; an existing name
      keeps its position and gets the new tool. */
  function Register(reg: ToolTable, t: Tool): (r: ToolTable)
    requires Valid(reg)
    ensures Valid(r)
    ensures Get(r, t.name) == Some(t)
    ensures forall n :: n != t.name ==> Get(r, n) == Get(reg, n)
    ensures Has(reg, t.name) ==> ToolNames(r) == ToolNames(reg)
    ensures !Has(reg, t.name) ==> ToolNames(r) == ToolNames(reg) + [t.name]
  {
    match IndexOf(reg.entries, t.name)
    case Some(i) =>
      ReplaceEntry(reg, i, t);
      ToolTable(reg.entries[i := t])
    case None =>
      AppendEntry(reg, t);
      ToolTable(reg.entries + [t])
  }

  /** Replacing the entry that carries a tool's name. */
  lemma ReplaceEntry(reg: ToolTable, i: nat, t: Tool)
    requires Valid(reg) && i < |reg.entries| && reg.entries[i].name == t.name
    ensures var r := ToolTable(reg.entries[i := t]);
            && Valid(r) && Get(r, t.name) == Some(t) && ToolNames(r) == ToolNames(reg)
            && forall n :: n != t.name ==> Get(r, n) == Get(reg, n)
  {
    var r := ToolTable(reg.entries[i := t]);
    assert Names(r.entries) == Names(reg.entries);
    assert Valid(r);
    IndexOfDistinct(r.entries, i);
    forall n | n != t.name ensures Get(r, n) == Get(reg, n) {
      IndexOfUpdate(reg.entries, i, t, n);
    }
  }

  /** Appending a tool whose name is new. */
  lemma AppendEntry(reg: ToolTable, t: Tool)
    requires Valid(reg) && IndexOf(reg.entries, t.name).None?
    ensures var r := ToolTable(reg.entries + [t]);
            && Valid(r) && Get(r, t.name) == Some(t) && ToolNames(r) == ToolNames(reg) + [t.name]
            && forall n :: n != t.name ==> Get(r, n) == Get(reg, n)
  {
    var r := ToolTable(reg.entries + [t]);
    assert Names(r.entries) == Names(reg.entries) + [t.name];
    assert Valid(r);
    IndexOfAppend(reg.entries, t, t.name);
    forall n | n != t.name ensures Get(r, n) == Get(reg, n) {
      IndexOfAppend(reg.entries, t, n);
    }
  }

  /** `registry.unregister(name)`: `dict.pop(name, None)`. */
  function Unregister(reg: ToolTable, name: string): (r: ToolTable)
    requires Valid(reg)
    ensures Valid(r)
    ensures Get(r, name).None?
    ensures forall n :: n != name ==> Get(r, n) == Get(reg, n)
    ensures !Has(reg, name) ==> r == reg
    ensures Size(r) == if Has(reg, name) then Size(reg) - 1 else Size(reg)
    ensures ToolNames(r) == Without(ToolNames(reg), name)
  {
    match IndexOf(reg.entries, name)
    case None =>
      WithoutAbsent(ToolNames(reg), name);
      reg
    case Some(i) =>
      RemoveNames(reg.entries, i);
      var r := ToolTable(reg.entries[..i] + reg.entries[i + 1..]);
      assert forall n :: n != name ==> Get(r, n) == Get(reg, n) by {
        forall n | n != name ensures Get(r, n) == Get(reg, n) {
          IndexOfRemove(reg.entries, i, n);
        }
      }
      IndexOfRemove(reg.entries, i, name);
      r
  }

  /** `names` with every occurrence of `name` dropped, the rest in order. */
  function Without(names: seq<string>, name: string): seq<string> {
    if names == [] then [] else (if names[0] == name then [] else [names[0]]) + Without(names[1..], name)
  }

  lemma {:induction false} WithoutAbsent(names: seq<string>, name: string)
    requires name !in names
    ensures Without(names, name) == names
  {
    if names != [] {
      WithoutAbsent(names[1..], name);
    }
  }

  /** Dropping a name that occurs once, at `i`, cuts out position `i`. */
  lemma {:induction false} WithoutAt(names: seq<string>, name: string, i: nat)
    requires i < |names| && names[i] == name
    requires forall j :: 0 <= j < |names| && j != i ==> names[j] != name
    ensures Without(names, name) == names[..i] + names[i + 1..]
  {
    if i == 0 {
      assert name !in names[1..] by {
        forall j | 0 <= j < |names[1..]| ensures names[1..][j] != name {
          assert names[1..][j] == names[j + 1];
        }
      }
      WithoutAbsent(names[1..], name);
    } else {
      WithoutAt(names[1..], name, i - 1);
      assert names[1..][..i - 1] == names[1..i];
      assert names[1..][i..] == names[i + 1..];
      assert names[..i] == [names[0]] + names[1..i];
    }
  }

  /** Cutting an entry out of the table cuts its name out of the names. */
  lemma RemoveNames(entries: seq<Tool>, i: nat)
    requires DistinctNames(entries) && i < |entries|
    ensures Names(entries[..i] + entries[i + 1..]) == Without(Names(entries), entries[i].name)
  {
    var names := Names(entries);
    var rest := entries[..i] + entries[i + 1..];
    var cut := names[..i] + names[i + 1..];
    assert |Names(rest)| == |cut|;
    forall k | 0 <= k < |cut| ensures Names(rest)[k] == cut[k] {
      var j := if k < i then k else k + 1;
      assert rest[k] == entries[j];
      assert cut[k] == names[j];
    }
    assert Names(rest) == cut;
    forall j | 0 <= j < |names| && j != i ensures names[j] != entries[i].name {
      if j < i { assert entries[j].name != entries[i].name; } else { assert entries[i].name != entries[j].name; }
    }
    WithoutAt(names, entries[i].name, i);
  }

  lemma {:induction false} IndexOfUpdate(entries: seq<Tool>, i: nat, t: Tool, n: string)
    requires i < |entries| && entries[i].name == t.name && n != t.name
    ensures IndexOf(entries[i := t], n) == IndexOf(entries, n)
  {
    if i > 0 {
      assert entries[i := t][1..] == entries[1..][i - 1 := t];
      IndexOfUpdate(entries[1..], i - 1, t, n);
    } else {
      assert entries[i := t][1..] == entries[1..];
    }
  }

  lemma {:induction false} IndexOfAppend(entries: seq<Tool>, t: Tool, n: string)
    requires n != t.name || forall k :: 0 <= k < |entries| ==> entries[k].name != n
    ensures n != t.name ==> IndexOf(entries + [t], n) == IndexOf(entries, n)
    ensures n == t.name ==> IndexOf(entries + [t], n) == Some(|entries|)
  {
    if entries != [] {
      assert (entries + [t])[1..] == entries[1..] + [t];
      IndexOfAppend(entries[1..], t, n);
    }
  }

  /** With distinct names, the entry holding a name is the one found. */
  lemma IndexOfDistinct(entries: seq<Tool>, k: nat)
    requires DistinctNames(entries) && k < |entries|
    ensures IndexOf(entries, entries[k].name) == Some(k)
  {
  }

  lemma IndexOfRemove(entries: seq<Tool>, i: nat, n: string)
    requires DistinctNames(entries)
    requires i < |entries|
    ensures DistinctNames(entries[..i] + entries[i + 1..])
    ensures n != entries[i].name ==>
      Get(ToolTable(entries[..i] + entries[i + 1..]), n) == Get(ToolTable(entries), n)
    ensures n == entries[i].name ==> IndexOf(entries[..i] + entries[i + 1..], n).None?
  {
    var rest := entries[..i] + entries[i + 1..];
    assert forall k :: 0 <= k < |rest| ==> rest[k] == entries[if k < i then k else k + 1];
    assert DistinctNames(rest);
    if n != entries[i].name {
      match IndexOf(entries, n)
      case None =>
      case Some(k) =>
        var k' := if k < i then k else k - 1;
        assert rest[k'] == entries[k];
        IndexOfDistinct(rest, k');
    }
  }

  /** The number of tools equals the number of distinct registered names. */
  lemma SizeIsDistinctNames(reg: ToolTable)
    requires Valid(reg)
    ensures Size(reg) == |set n | n in ToolNames(reg)|
  {
    DistinctCard(Names(reg.entries));
  }

  lemma {:induction false} DistinctCard(s: seq<string>)
    requires forall i, j :: 0 <= i < j < |s| ==> s[i] != s[j]
    ensures |set x | x in s| == |s|
  {
    if s != [] {
      var tail := s[1..];
      DistinctCard(tail);
      assert (set x | x in s) == (set x | x in tail) + {s[0]};
      assert s[0] !in tail;
    }
  }

  /** What `execute` returned and whether the tool body ran. */
  datatype Execution = Execution(result: string, invoked: bool)

  /** `registry.execute(name, params)` along its reachable path: an unknown
      name, a failed validation and a raising body all become error text. */
  function Execute(reg: ToolTable, name: string, params: Params): (r: Execution)
    ensures !Has(reg, name) ==> r == Execution("Error: Tool '" + name + "' not found", false)
    ensures Has(reg, name) && |Get(reg, name).value.validate(params)| > 0 ==>
      && !r.invoked
      && r.result == "Error: Invalid parameters for tool '" + name + "': "
                     + Join(Get(reg, name).value.validate(params), "; ")
    ensures r.invoked <==> Has(reg, name) && Get(reg, name).value.validate(params) == []
    ensures r.invoked ==> r.result == Run(Get(reg, name).value, params)
  {
    match Get(reg, name)
    case None => Execution("Error: Tool '" + name + "' not found", false)
    case Some(tool) =>
      var errors := tool.validate(params);
      if |errors| > 0 then
        Execution("Error: Invalid parameters for tool '" + name + "': " + Join(errors, "; "), false)
      else
        Execution(Run(tool, params), true)
  }

  /** The `try` around the tool body: a returned string passes through
      unchanged, a raised exception becomes `Error executing <name>: <msg>`. */
  function Run(tool: Tool, params: Params): (r: string)
    ensures tool.body(params).Ok? ==> r == tool.body(params).text
    ensures tool.body(params).Raise? ==> r == "Error executing " + tool.name + ": " + tool.body(params).message
  {
    match tool.body(params)
    case Ok(s) => s
    case Raise(m) => "Error executing " + tool.name + ": " + m
  }

  /** An execution result carries the error marker exactly when the registry
      refused the call, the body raised, or the body itself returned error text. */
  lemma ExecuteErrorClassification(reg: ToolTable, name: string, params: Params)
    ensures StartsWith(Execute(reg, name, params).result, "Error") <==>
      || !Has(reg, name)
      || |Get(reg, name).value.validate(params)| > 0
      || Get(reg, name).value.body(params).Raise?
      || StartsWith(Get(reg, name).value.body(params).text, "Error")
  {
    match Get(reg, name)
    case None => NotFoundIsError(name);
    case Some(tool) =>
      if |tool.validate(params)| > 0 {
        InvalidIsError(name, tool.validate(params));
      } else {
        RunErrorClassification(tool, params);
      }
  }

  lemma NotFoundIsError(name: string)
    ensures StartsWith("Error: Tool '" + name + "' not found", "Error")
  {
    ErrorText("Error: Tool '", name, "' not found");
  }

  lemma InvalidIsError(name: string, errors: seq<string>)
    ensures StartsWith("Error: Invalid parameters for tool '" + name + "': " + Join(errors, "; "), "Error")
  {
    var head := "Error: Invalid parameters for tool '";
    ErrorText(head, name, "': ");
    StartsWithConcat("Error", head + name + "': ", Join(errors, "; "));
  }

  /** The `try` around the body marks exactly the raised exceptions and the
      bodies that returned error text. */
  lemma RunErrorClassification(tool: Tool, params: Params)
    ensures StartsWith(Run(tool, params), "Error") <==>
      tool.body(params).Raise? || StartsWith(tool.body(params).text, "Error")
  {
    match tool.body(params)
    case Ok(_) =>
    case Raise(m) => ErrorText("Error executing ", tool.name, ": " + m);
      assert Run(tool, params) == "Error executing " + tool.name + (": " + m);
  }

  lemma ErrorText(head: string, a: string, b: string)
    requires StartsWith(head, "Error")
    ensures StartsWith(head + a + b, "Error")
  {
    StartsWithConcat("Error", head, a);
    StartsWithConcat("Error", head + a, b);
  }

  /** Executing a tool right after registering it runs that tool, whatever
      else the registry holds. */
  lemma ExecuteAfterRegister(reg: ToolTable, t: Tool, params: Params)
    requires Valid(reg)
    ensures Execute(Register(reg, t), t.name, params).invoked <==> t.validate(params) == []
    ensures t.validate(params) == [] ==>
      Execute(Register(reg, t), t.name, params).result == Run(t, params)
  {
  }

  /** After `unregister(n)`, executing `n` reports it as not found. */
  lemma ExecuteAfterUnregister(reg: ToolTable, name: string, params: Params)
    requires Valid(reg)
    ensures Execute(Unregister(reg, name), name, params)
            == Execution("Error: Tool '" + name + "' not found", false)
  {
  }
}
