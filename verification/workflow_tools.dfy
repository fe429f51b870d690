/**
 * The composite workflow tools (src/workflow_tools.py): six tool
 * definitions paired with the name of the handler that serves each, and
 * the generator that turns the table into the tool list and the
 * tool-name -> handler-name dispatch map. Tool and parameter descriptions
 * are human text and are not modelled.
 */
module WorkflowTools {
  import opened Json
  import Strings
  import G = ToolGenerator
  import R = EntityRegistry
  import W = WorkflowHandlers

  /** One row of `_ALL_WORKFLOW_TOOLS`. */
  datatype WorkflowTool = WorkflowTool(tool: G.Tool, handler: string)

  function TypeProp(typ: string): Value {
    Obj(map["type" := Str(typ)])
  }

  /** A boolean flag that defaults to False. */
  function FlagProp(): Value {
    Obj(map["type" := Str("boolean"), "default" := Bool(false)])
  }

  /** An object parameter that accepts any further keys. */
  function OpenObject(): Value {
    Obj(map["type" := Str("object"), "additionalProperties" := Bool(true)])
  }

  /** An open object parameter that documents some of its keys. */
  function DocumentedObject(props: map<string, Value>): Value {
    Obj(map["type" := Str("object"), "properties" := Obj(props), "additionalProperties" := Bool(true)])
  }

  /** A record id: an integer of at least 1. */
  function ContractIdProp(): Value {
    Obj(map["type" := Str("integer"), "minimum" := Int(1)])
  }

  /** The parameters of `agiloft_preflight_create_contract`: both optional. */
  function PreflightSchema(): (r: Value)
    ensures G.Required(r) == [] && G.RequiredDeclared(r)
    ensures G.Properties(r).Keys == {"contract_type", "company_name"}
  {
    G.ObjectSchema(map["contract_type" := TypeProp("string"), "company_name" := TypeProp("string")], [])
  }

  /** The parameters of `agiloft_create_contract_with_company`. */
  function CreateWithCompanySchema(): (r: Value)
    ensures G.Required(r) == [Str("contract_data"), Str("company_name")] && G.RequiredDeclared(r)
  {
    var props := map[
      "contract_data" := OpenObject(),
      "company_name" := TypeProp("string"),
      "create_company_if_missing" := FlagProp(),
      "company_data" := OpenObject()];
    G.ObjectSchema(props, ["contract_data", "company_name"])
  }

  /** The parameters of `agiloft_get_contract_summary`. */
  function SummarySchema(): (r: Value)
    ensures G.Required(r) == [Str("contract_id")] && G.RequiredDeclared(r)
  {
    G.ObjectSchema(map["contract_id" := ContractIdProp()], ["contract_id"])
  }

  /** The parameters of `agiloft_find_expiring_contracts`: all optional. */
  function ExpiringSchema(): (r: Value)
    ensures G.Required(r) == [] && G.RequiredDeclared(r)
  {
    G.ObjectSchema(map[
      "days_from_now" := Obj(map["type" := Str("integer"), "minimum" := Int(1), "default" := Int(90)]),
      "include_expired" := FlagProp(),
      "status_filter" := TypeProp("string")],
      [])
  }

  /** The parameters of `agiloft_onboard_company_with_contact`. */
  function OnboardSchema(): (r: Value)
    ensures G.Required(r) == [Str("company_data")] && G.RequiredDeclared(r)
  {
    var props := map[
      "company_data" := DocumentedObject(map[
        "company_name" := TypeProp("string"), "type_of_company" := TypeProp("string"), "status" := TypeProp("string")]),
      "contact_data" := DocumentedObject(map[
        "first_name" := TypeProp("string"), "last_name" := TypeProp("string"),
        "email" := TypeProp("string"), "title" := TypeProp("string")]),
      "skip_if_exists" := FlagProp()];
    G.ObjectSchema(props, ["company_data"])
  }

  /** The parameters of `agiloft_attach_file_to_contract`. */
  function AttachSchema(): (r: Value)
    ensures G.Required(r) == [Str("contract_id"), Str("file_path")] && G.RequiredDeclared(r)
  {
    var props := map[
      "contract_id" := ContractIdProp(),
      "file_path" := TypeProp("string"),
      "file_name" := TypeProp("string"),
      "attachment_title" := TypeProp("string")];
    G.ObjectSchema(props, ["contract_id", "file_path"])
  }

  /** The handler names of `_ALL_WORKFLOW_TOOLS`, in order. */
  const HandlerNames: seq<string> := [
    "preflight_create_contract", "create_contract_with_company", "get_contract_summary",
    "find_expiring_contracts", "onboard_company_with_contact", "attach_file_to_contract"]

  /** Each tool's name, which the source spells out as `agiloft_` followed
      by the name of the handler it is paired with. */
  const ToolNames: seq<string> := [
    "agiloft_" + HandlerNames[0], "agiloft_" + HandlerNames[1], "agiloft_" + HandlerNames[2],
    "agiloft_" + HandlerNames[3], "agiloft_" + HandlerNames[4], "agiloft_" + HandlerNames[5]]

  function SchemaAt(i: int): Value
    requires 0 <= i < 6
  {
    match i
    case 0 => PreflightSchema()
    case 1 => CreateWithCompanySchema()
    case 2 => SummarySchema()
    case 3 => ExpiringSchema()
    case 4 => OnboardSchema()
    case _ => AttachSchema()
  }

  function Row(i: int): WorkflowTool
    requires 0 <= i < 6
  {
    WorkflowTool(G.Tool(ToolNames[i], SchemaAt(i)), HandlerNames[i])
  }

  /** `_ALL_WORKFLOW_TOOLS`, in its order. */
  const AllWorkflowTools: seq<WorkflowTool> := [Row(0), Row(1), Row(2), Row(3), Row(4), Row(5)]

  lemma RowsNamed()
    ensures |AllWorkflowTools| == 6
    ensures forall i :: 0 <= i < 6 ==>
      AllWorkflowTools[i].tool.name == ToolNames[i] && AllWorkflowTools[i].handler == HandlerNames[i]
  {
  }

  function ToolsOf(rows: seq<WorkflowTool>): (r: seq<G.Tool>)
    ensures |r| == |rows|
    ensures forall i :: 0 <= i < |rows| ==> r[i] == rows[i].tool
  {
    if |rows| == 0 then [] else [rows[0].tool] + ToolsOf(rows[1..])
  }

  /** `dispatch[tool.name] = handler_name` for each row in turn. */
  function DispatchOf(rows: seq<WorkflowTool>): (r: map<string, string>)
    ensures forall n :: n in r <==> exists i :: 0 <= i < |rows| && rows[i].tool.name == n
  {
    if |rows| == 0 then map[]
    else
      var init := rows[..|rows| - 1];
      var last := rows[|rows| - 1];
      assert forall i :: 0 <= i < |init| ==> init[i] == rows[i];
      DispatchOf(init)[last.tool.name := last.handler]
  }

  /** `generate_workflow_tools()`: the tools in table order, and the dispatch
      map whose keys are exactly their names. */
  function GenerateWorkflowTools(): (r: (seq<G.Tool>, map<string, string>))
    ensures |r.0| == |AllWorkflowTools|
    ensures forall i :: 0 <= i < |r.0| ==> r.0[i] == AllWorkflowTools[i].tool
    ensures forall n :: n in r.1 <==> exists i :: 0 <= i < |r.0| && r.0[i].name == n
  {
    (ToolsOf(AllWorkflowTools), DispatchOf(AllWorkflowTools))
  }

  /** The required arguments of each workflow tool, each a declared property. */
  lemma RequiredArguments()
    ensures G.Required(AllWorkflowTools[0].tool.inputSchema) == []
    ensures G.Required(AllWorkflowTools[1].tool.inputSchema) == [Str("contract_data"), Str("company_name")]
    ensures G.Required(AllWorkflowTools[2].tool.inputSchema) == [Str("contract_id")]
    ensures G.Required(AllWorkflowTools[3].tool.inputSchema) == []
    ensures G.Required(AllWorkflowTools[4].tool.inputSchema) == [Str("company_data")]
    ensures G.Required(AllWorkflowTools[5].tool.inputSchema) == [Str("contract_id"), Str("file_path")]
    ensures forall i :: 0 <= i < |AllWorkflowTools| ==> G.RequiredDeclared(AllWorkflowTools[i].tool.inputSchema)
  {
  }

  /** With distinct names, the dispatch map sends each row's name to its handler. */
  lemma {:induction false} DispatchOfDistinct(rows: seq<WorkflowTool>)
    requires forall i, j :: 0 <= i < j < |rows| ==> rows[i].tool.name != rows[j].tool.name
    ensures forall i :: 0 <= i < |rows| ==> DispatchOf(rows)[rows[i].tool.name] == rows[i].handler
  {
    if |rows| > 0 {
      var init := rows[..|rows| - 1];
      assert forall i :: 0 <= i < |init| ==> init[i] == rows[i];
      DispatchOfDistinct(init);
    }
  }

  /** `"agiloft_" + x == "agiloft_" + y` only when `x == y`. */
  lemma DropPrefix(x: string, y: string)
    requires "agiloft_" + x == "agiloft_" + y
    ensures x == y
  {
    assert x == ("agiloft_" + x)[8..];
    assert y == ("agiloft_" + y)[8..];
  }

  /** The handler names are pairwise distinct, and so are the tool names. */
  lemma NamesDistinct()
    ensures forall i, j :: 0 <= i < j < 6 ==> HandlerNames[i] != HandlerNames[j]
    ensures forall i, j :: 0 <= i < j < 6 ==> ToolNames[i] != ToolNames[j]
  {
    forall i, j | 0 <= i < j < 6 ensures ToolNames[i] != ToolNames[j] {
      if ToolNames[i] == ToolNames[j] {
        DropPrefix(HandlerNames[i], HandlerNames[j]);
      }
    }
  }

  /** Every handler name is registered: it names the workflow of the same name. */
  lemma HandlersRegistered()
    ensures forall i :: 0 <= i < 6 ==>
      W.ParseHandler(HandlerNames[i]).Some? && W.HandlerName(W.ParseHandler(HandlerNames[i]).value) == HandlerNames[i]
  {
    W.ParseHandlerName(W.PreflightCreateContract);
    W.ParseHandlerName(W.CreateContractWithCompanyFlow);
    W.ParseHandlerName(W.GetContractSummary);
    W.ParseHandlerName(W.FindExpiringContracts);
    W.ParseHandlerName(W.OnboardCompanyWithContact);
    W.ParseHandlerName(W.AttachFileToContract);
  }

  /** Every generated tool is dispatched to the handler of its row. */
  lemma DispatchTable()
    ensures forall i :: 0 <= i < 6 ==> ToolNames[i] in GenerateWorkflowTools().1
    ensures forall i :: 0 <= i < 6 ==> GenerateWorkflowTools().1[ToolNames[i]] == HandlerNames[i]
  {
    NamesDistinct();
    RowsNamed();
    DispatchOfDistinct(AllWorkflowTools);
  }

  /** Dispatching a generated workflow tool runs the workflow of its row. */
  lemma GeneratedWorkflowsDispatch(i: int, args: Object, env: W.Env)
    requires 0 <= i < 6
    ensures W.ParseHandler(HandlerNames[i]).Some?
    ensures W.DispatchWorkflowCall(GenerateWorkflowTools().1, ToolNames[i], args, env)
         == W.RunWorkflow(W.ParseHandler(HandlerNames[i]).value, args, env)
  {
    DispatchTable();
    HandlersRegistered();
  }

  // ---------------------------------------------------------------------
  // No clash with the entity tools
  // ---------------------------------------------------------------------

  /** The two facts about an entity key that keep it from completing a
      workflow handler name: it is short, and it does not start with `t`. */
  predicate KeyShape(key: string) {
    |key| <= 14 && (|key| > 0 ==> key[0] != 't')
  }

  lemma EntityKeysShaped()
    ensures |R.EntityKeys| == |R.EntityPlurals| == 7
    ensures forall k :: 0 <= k < 7 ==> KeyShape(R.EntityKeys[k]) && KeyShape(R.EntityPlurals[k])
  {
  }

  /** What `action + "_" + key == handler` says about the handler name. */
  lemma SplitHandler(a: G.Action, key: string, h: string)
    requires G.Name(a) + "_" + key == h
    ensures |G.Name(a)| < |h| && h[..|G.Name(a)|] == G.Name(a)
    ensures key == h[|G.Name(a)| + 1..]
  {
    var p := G.Name(a) + "_";
    assert h == p + key;
    assert h[..|G.Name(a)|] == p[..|G.Name(a)|];
  }

  /** No action name followed by an entity key or plural spells a workflow
      handler name. */
  lemma HandlerNotEntitySuffix(a: G.Action, key: string, i: int)
    requires 0 <= i < 6
    requires KeyShape(key)
    ensures G.Name(a) + "_" + key != HandlerNames[i]
  {
    var h, n := HandlerNames[i], G.Name(a);
    var s := n + "_" + key;
    assert s[0] == n[0];
    if n[0] == h[0] {
      if a == G.Create || a == G.Get {
        assert |s| < |h|;
      } else if a == G.GetAttachmentInfo {
        assert s[4] != h[4];
      } else if a == G.ActionButton {
        assert s[1] != h[1];
      } else if |key| == 0 {
        assert |s| < |h|;
      } else {
        assert s[12] != h[12];
      }
    }
  }

  /** Every key and plural of a registry whose keys are all shaped. */
  predicate KeysShaped(reg: R.Table) {
    forall k :: 0 <= k < |reg| ==> KeyShape(reg[k].1.key) && KeyShape(reg[k].1.keyPlural)
  }

  lemma RegistryKeysShaped()
    ensures KeysShaped(R.Registry)
  {
    R.RegistryKeys();
    EntityKeysShaped();
  }

  /** A generated entity tool is named `agiloft_` + action + `_` + a key of
      the registry. */
  lemma EntityToolName(reg: R.Table, j: int) returns (a: G.Action, key: string)
    requires 0 <= j < |G.AllEntries(reg)|
    requires KeysShaped(reg)
    ensures KeyShape(key)
    ensures G.AllEntries(reg)[j].tool.name == "agiloft_" + (G.Name(a) + "_" + key)
  {
    var x := G.AllEntries(reg)[j];
    G.EntriesFromRegistry(reg, j);
    var k :| G.GeneratedFrom(reg, k, x);
    var e := reg[k].1;
    a := x.action;
    key := if a == G.Search then e.keyPlural else e.key;
    assert x.tool.name == G.ToolName(a, e, a == G.Search);
    Regroup("agiloft_", G.Name(a), key);
  }

  lemma Regroup(p: string, n: string, key: string)
    ensures p + n + "_" + key == p + (n + "_" + key)
  {
  }

  /** No workflow tool shares its name with a tool generated from a
      registry whose keys are shaped like the shipped ones. */
  lemma NoClashWithEntityTools(reg: R.Table, i: int, j: int)
    requires 0 <= i < 6
    requires 0 <= j < |G.AllEntries(reg)|
    requires KeysShaped(reg)
    ensures ToolNames[i] != G.AllEntries(reg)[j].tool.name
  {
    var a, key := EntityToolName(reg, j);
    if ToolNames[i] == G.AllEntries(reg)[j].tool.name {
      DropPrefix(HandlerNames[i], G.Name(a) + "_" + key);
      HandlerNotEntitySuffix(a, key, i);
    }
  }

  /** In particular no workflow tool shares its name with a tool generated
      from the shipped registry, so the two dispatch maps never compete for
      a name. */
  lemma NoClashWithShippedTools(i: int, j: int)
    requires 0 <= i < 6
    requires 0 <= j < |G.AllEntries(R.Registry)|
    ensures ToolNames[i] != G.AllEntries(R.Registry)[j].tool.name
  {
    RegistryKeysShaped();
    NoClashWithEntityTools(R.Registry, i, j);
  }
}
