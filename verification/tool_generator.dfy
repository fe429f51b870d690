/**
 * Tool generation (src/tool_generator.py): every registry record yields one
 * MCP tool per supported operation, and a dispatch map from tool name to
 * (entity key, action). Tool and parameter description texts are not
 * modelled; names, input-schema structure and constants are.
 */
module ToolGenerator {
  import opened Wrappers
  import opened Json
  import opened EntityRegistry
  import Strings

  /** DELETE_RULES, and the rule the delete tool and handler default to. */
  const DeleteRules: seq<string> := [
    "ERROR_IF_DEPENDANTS",
    "APPLY_DELETE_WHERE_POSSIBLE",
    "DELETE_WHERE_POSSIBLE_OTHERWISE_UNLINK",
    "UNLINK_WHERE_POSSIBLE_OTHERWISE_DELETE"
  ]
  const DefaultDeleteRule: string := "UNLINK_WHERE_POSSIBLE_OTHERWISE_DELETE"

  /** The search tool's `limit` schema: default 50, within 1..500. */
  const DefaultLimit: int := 50
  const MinLimit: int := 1
  const MaxLimit: int := 500

  /** An MCP tool: its name and its JSON input schema. */
  datatype Tool = Tool(name: string, inputSchema: Value)

  /** The operations a tool can perform: the keys of `_GENERATORS`. */
  datatype Action =
    | Search | Get | Create | Update | Delete | Upsert
    | AttachFile | RetrieveAttachment | RemoveAttachment | GetAttachmentInfo
    | ActionButton | EvaluateFormat

  /** The action string a generator reports and the dispatch map records. */
  function Name(a: Action): string {
    match a
    case Search => "search"
    case Get => "get"
    case Create => "create"
    case Update => "update"
    case Delete => "delete"
    case Upsert => "upsert"
    case AttachFile => "attach_file"
    case RetrieveAttachment => "retrieve_attachment"
    case RemoveAttachment => "remove_attachment"
    case GetAttachmentInfo => "get_attachment_info"
    case ActionButton => "action_button"
    case EvaluateFormat => "evaluate_format"
  }

  /** Looking an action string up in a table keyed by action names
      (`_GENERATORS.get`, `HANDLER_DISPATCH.get`): None for any other string. */
  function ParseAction(s: string): (r: Option<Action>)
    ensures r.Some? ==> Name(r.value) == s
  {
    match s
    case "search" => Some(Search)
    case "get" => Some(Get)
    case "create" => Some(Create)
    case "update" => Some(Update)
    case "delete" => Some(Delete)
    case "upsert" => Some(Upsert)
    case "attach_file" => Some(AttachFile)
    case "retrieve_attachment" => Some(RetrieveAttachment)
    case "remove_attachment" => Some(RemoveAttachment)
    case "get_attachment_info" => Some(GetAttachmentInfo)
    case "action_button" => Some(ActionButton)
    case "evaluate_format" => Some(EvaluateFormat)
    case _ => None
  }

  /** Every action string is found under its own name, so a string is a known
      action exactly when it is some action's name. */
  lemma ParseName(a: Action)
    ensures ParseAction(Name(a)) == Some(a)
  {
  }

  lemma ParseActionExact(s: string)
    ensures ParseAction(s).Some? <==> exists a :: Name(a) == s
  {
    if exists a :: Name(a) == s {
      var a :| Name(a) == s;
      ParseName(a);
    }
  }

  /** Different actions have different names. */
  lemma NameInjective(a: Action, b: Action)
    ensures Name(a) == Name(b) ==> a == b
  {
    if Name(a) == Name(b) {
      ParseName(a);
      ParseName(b);
    }
  }

  /** The keys of `_GENERATORS`, in declaration order. */
  const Actions: seq<Action> := [
    Search, Get, Create, Update, Delete, Upsert,
    AttachFile, RetrieveAttachment, RemoveAttachment, GetAttachmentInfo,
    ActionButton, EvaluateFormat
  ]

  /** `_tool_name(action, entity, plural)`. */
  function ToolName(a: Action, e: EntityConfig, plural: bool): string {
    "agiloft_" + Name(a) + "_" + (if plural then e.keyPlural else e.key)
  }

  // ---------------------------------------------------------------------
  // Input schemas
  // ---------------------------------------------------------------------

  function TypeOnly(typ: string): Value {
    Obj(map["type" := Str(typ)])
  }

  /** A `record_id` parameter: an integer of at least 1. */
  function RecordIdProp(): Value {
    Obj(map["type" := Str("integer"), "minimum" := Int(1)])
  }

  function FieldsProp(): Value {
    Obj(map["type" := Str("array"), "items" := TypeOnly("string")])
  }

  /** A `file_position` parameter: a non-negative integer defaulting to 0. */
  function FilePositionProp(): Value {
    Obj(map["type" := Str("integer"), "default" := Int(0), "minimum" := Int(0)])
  }

  function LimitProp(): Value {
    Obj(map["type" := Str("integer"), "default" := Int(DefaultLimit),
            "minimum" := Int(MinLimit), "maximum" := Int(MaxLimit)])
  }

  function DeleteRuleProp(): Value {
    Obj(map["type" := Str("string"), "enum" := StrList(DeleteRules),
            "default" := Str(DefaultDeleteRule)])
  }

  function ObjectSchema(props: map<string, Value>, required: seq<string>): Value {
    Obj(map["type" := Str("object"), "properties" := Obj(props), "required" := StrList(required)])
  }

  /** The `properties` of an object schema (empty when there are none). */
  function Properties(schema: Value): map<string, Value> {
    if schema.Obj? && "properties" in schema.fields && schema.fields["properties"].Obj?
    then schema.fields["properties"].fields
    else map[]
  }

  /** The `required` names of an object schema. */
  function Required(schema: Value): seq<Value> {
    if schema.Obj? && "required" in schema.fields && schema.fields["required"].Arr?
    then schema.fields["required"].items
    else []
  }

  /** Every required parameter is a declared property. */
  predicate RequiredDeclared(schema: Value) {
    forall i :: 0 <= i < |Required(schema)| ==>
      Required(schema)[i].Str? && Required(schema)[i].s in Properties(schema)
  }

  /** One key-field entry of `_data_schema`: type and description copied. */
  function FieldProp(entity: string, field: (string, string)): Value {
    Obj(map["type" := Str(field.1), "description" := Str(FieldDescription(entity, field.0))])
  }

  /** The field names of a non-empty list: those of all but the last entry,
      then the last one's. */
  lemma NamesSnoc<T>(kf: seq<(string, T)>)
    requires |kf| > 0
    ensures Names(kf) == Names(kf[..|kf| - 1]) + [kf[|kf| - 1].0]
  {
    var init := kf[..|kf| - 1];
    assert |Names(kf)| == |Names(init) + [kf[|kf| - 1].0]|;
    forall i | 0 <= i < |kf|
      ensures Names(kf)[i] == (Names(init) + [kf[|kf| - 1].0])[i]
    {
      if i < |init| {
        assert kf[i] == init[i];
      }
    }
  }

  /** Entry `i` is the last one with its field name: a later duplicate in
      `key_fields` would overwrite it. */
  predicate LastOccurrence<T>(kf: seq<(string, T)>, i: int)
    requires 0 <= i < |kf|
  {
    forall j :: i < j < |kf| ==> kf[j].0 != kf[i].0
  }

  /** An entry not repeated later in a list is not repeated later in the
      list without its last entry either. */
  lemma LastOccurrenceInInit<T>(kf: seq<(string, T)>, init: seq<(string, T)>, i: int)
    requires |kf| > 0 && init == kf[..|kf| - 1] && 0 <= i < |init|
    requires LastOccurrence(kf, i)
    ensures init[i] == kf[i] && LastOccurrence(init, i)
  {
    forall j | i < j < |init| ensures init[j].0 != init[i].0 {
      assert init[j] == kf[j];
    }
  }

  /** The `properties` of `_data_schema`, filled in `key_fields` order. */
  function FieldProps(entity: string, kf: seq<(string, string)>): map<string, Value>
  {
    if |kf| == 0 then map[]
    else FieldProps(entity, kf[..|kf| - 1])[kf[|kf| - 1].0 := FieldProp(entity, kf[|kf| - 1])]
  }

  /** The data properties are exactly the key fields, and each field's
      entry is built from its last declaration. */
  lemma {:induction false} FieldPropsContents(entity: string, kf: seq<(string, string)>)
    ensures forall f :: f in FieldProps(entity, kf) <==> f in Names(kf)
    ensures forall i :: 0 <= i < |kf| && LastOccurrence(kf, i) ==>
      FieldProps(entity, kf)[kf[i].0] == FieldProp(entity, kf[i])
    decreases |kf|
  {
    if |kf| > 0 {
      var init := kf[..|kf| - 1];
      FieldPropsContents(entity, init);
      NamesSnoc(kf);
      forall i | 0 <= i < |kf| - 1 && LastOccurrence(kf, i)
        ensures FieldProps(entity, kf)[kf[i].0] == FieldProp(entity, kf[i])
      {
        LastOccurrenceInInit(kf, init, i);
      }
    }
  }

  /** `_data_schema(entity, _)`: an open object (`additionalProperties` is
      true) whose declared properties are exactly the entity's key fields. */
  function DataSchema(e: EntityConfig): (r: Value)
    ensures r.Obj? && "additionalProperties" in r.fields && r.fields["additionalProperties"] == Bool(true)
    ensures forall f :: f in Properties(r) <==> f in e.FieldNames()
  {
    FieldPropsContents(e.key, e.keyFields);
    Obj(map["type" := Str("object"),
            "properties" := Obj(FieldProps(e.key, e.keyFields)),
            "additionalProperties" := Bool(true)])
  }

  // ---------------------------------------------------------------------
  // The twelve generators
  // ---------------------------------------------------------------------

  function SearchSchema(): Value {
    ObjectSchema(map["query" := TypeOnly("string"), "fields" := FieldsProp(), "limit" := LimitProp()],
                 ["query"])
  }

  function GetSchema(): Value {
    ObjectSchema(map["record_id" := RecordIdProp(), "fields" := FieldsProp()], ["record_id"])
  }

  function CreateSchema(e: EntityConfig): Value {
    ObjectSchema(map["data" := DataSchema(e)], ["data"])
  }

  function UpdateSchema(e: EntityConfig): Value {
    ObjectSchema(map["record_id" := RecordIdProp(), "data" := DataSchema(e)], ["record_id", "data"])
  }

  function DeleteSchema(): Value {
    ObjectSchema(map["record_id" := RecordIdProp(), "delete_rule" := DeleteRuleProp()], ["record_id"])
  }

  function UpsertSchema(e: EntityConfig): Value {
    ObjectSchema(map["query" := TypeOnly("string"), "data" := DataSchema(e)], ["query", "data"])
  }

  function AttachFileSchema(): Value {
    ObjectSchema(map["record_id" := RecordIdProp(), "field" := TypeOnly("string"),
                     "file_name" := TypeOnly("string"), "file_content_base64" := TypeOnly("string")],
                 ["record_id", "field", "file_name", "file_content_base64"])
  }

  /** Shared by retrieve_attachment and remove_attachment. */
  function FilePositionSchema(): Value {
    ObjectSchema(map["record_id" := RecordIdProp(), "field" := TypeOnly("string"),
                     "file_position" := FilePositionProp()],
                 ["record_id", "field"])
  }

  /** A record id plus one required string parameter. */
  function RecordAndStringSchema(param: string): Value {
    ObjectSchema(map["record_id" := RecordIdProp(), param := TypeOnly("string")], ["record_id", param])
  }

  /** The input schema of the tool generated for `a`. */
  function Schema(a: Action, e: EntityConfig): Value {
    match a
    case Search => SearchSchema()
    case Get => GetSchema()
    case Create => CreateSchema(e)
    case Update => UpdateSchema(e)
    case Delete => DeleteSchema()
    case Upsert => UpsertSchema(e)
    case AttachFile => AttachFileSchema()
    case RetrieveAttachment => FilePositionSchema()
    case RemoveAttachment => FilePositionSchema()
    case GetAttachmentInfo => RecordAndStringSchema("field")
    case ActionButton => RecordAndStringSchema("button_name")
    case EvaluateFormat => RecordAndStringSchema("formula")
  }

  /** `_GENERATORS[a](e)`: the tool and the action string it reports. Only
      the search tool is named after the plural. */
  function Generate(a: Action, e: EntityConfig): (r: (Tool, string))
    ensures r.1 == Name(a) && ParseAction(r.1) == Some(a)
    ensures r.0.name == ToolName(a, e, a == Search)
  {
    ParseName(a);
    (Tool(ToolName(a, e, a == Search), Schema(a, e)), Name(a))
  }

  /** An object schema declares its required names when each is a property. */
  lemma ObjectSchemaDeclares(props: map<string, Value>, required: seq<string>)
    requires forall i :: 0 <= i < |required| ==> required[i] in props
    ensures RequiredDeclared(ObjectSchema(props, required))
  {
  }

  /** Every generated tool declares each of its required parameters. */
  lemma GeneratedSchemasDeclareRequired(a: Action, e: EntityConfig)
    ensures RequiredDeclared(Generate(a, e).0.inputSchema)
  {
    match a
    case Search => SearchDeclares();
    case Get => GetDeclares();
    case Create => CreateDeclares(e);
    case Update => UpdateDeclares(e);
    case Delete => DeleteDeclares();
    case Upsert => UpsertDeclares(e);
    case AttachFile => AttachFileDeclares();
    case RetrieveAttachment => FilePositionDeclares();
    case RemoveAttachment => FilePositionDeclares();
    case GetAttachmentInfo => RecordAndStringDeclares("field");
    case ActionButton => RecordAndStringDeclares("button_name");
    case EvaluateFormat => RecordAndStringDeclares("formula");
  }

  lemma SearchDeclares()
    ensures RequiredDeclared(SearchSchema())
  {
    ObjectSchemaDeclares(map["query" := TypeOnly("string"), "fields" := FieldsProp(), "limit" := LimitProp()],
                         ["query"]);
  }

  lemma GetDeclares()
    ensures RequiredDeclared(GetSchema())
  {
    ObjectSchemaDeclares(map["record_id" := RecordIdProp(), "fields" := FieldsProp()], ["record_id"]);
  }

  lemma CreateDeclares(e: EntityConfig)
    ensures RequiredDeclared(CreateSchema(e))
  {
    ObjectSchemaDeclares(map["data" := DataSchema(e)], ["data"]);
  }

  lemma UpdateDeclares(e: EntityConfig)
    ensures RequiredDeclared(UpdateSchema(e))
  {
    ObjectSchemaDeclares(map["record_id" := RecordIdProp(), "data" := DataSchema(e)], ["record_id", "data"]);
  }

  lemma DeleteDeclares()
    ensures RequiredDeclared(DeleteSchema())
  {
    ObjectSchemaDeclares(map["record_id" := RecordIdProp(), "delete_rule" := DeleteRuleProp()], ["record_id"]);
  }

  lemma UpsertDeclares(e: EntityConfig)
    ensures RequiredDeclared(UpsertSchema(e))
  {
    ObjectSchemaDeclares(map["query" := TypeOnly("string"), "data" := DataSchema(e)], ["query", "data"]);
  }

  lemma AttachFileDeclares()
    ensures RequiredDeclared(AttachFileSchema())
  {
    ObjectSchemaDeclares(map["record_id" := RecordIdProp(), "field" := TypeOnly("string"),
                             "file_name" := TypeOnly("string"), "file_content_base64" := TypeOnly("string")],
                         ["record_id", "field", "file_name", "file_content_base64"]);
  }

  lemma FilePositionDeclares()
    ensures RequiredDeclared(FilePositionSchema())
  {
    ObjectSchemaDeclares(map["record_id" := RecordIdProp(), "field" := TypeOnly("string"),
                             "file_position" := FilePositionProp()],
                         ["record_id", "field"]);
  }

  lemma RecordAndStringDeclares(param: string)
    ensures RequiredDeclared(RecordAndStringSchema(param))
  {
    ObjectSchemaDeclares(map["record_id" := RecordIdProp(), param := TypeOnly("string")], ["record_id", param]);
  }

  /** The search tool's `limit` defaults to 50 within 1..500. */
  lemma SearchLimitDefault(e: EntityConfig)
    ensures Properties(Generate(Search, e).0.inputSchema)["limit"] ==
      Obj(map["type" := Str("integer"), "default" := Int(50), "minimum" := Int(1), "maximum" := Int(500)])
  {
  }

  /** The delete tool's `delete_rule` is one of DELETE_RULES and defaults to
      the unlink-where-possible rule. */
  lemma DeleteRuleDefault(e: EntityConfig)
    ensures var rule := Properties(Generate(Delete, e).0.inputSchema)["delete_rule"];
      && rule.Obj? && rule.fields["enum"] == StrList(DeleteRules)
      && rule.fields["default"] == Str(DefaultDeleteRule)
      && DefaultDeleteRule in DeleteRules
  {
  }

  // ---------------------------------------------------------------------
  // Operation lists
  // ---------------------------------------------------------------------

  /** Whether an entity's flags enable an action: the four attachment actions
      need `supports_attach`, the last two their own flag, the rest nothing. */
  predicate Supports(e: EntityConfig, a: Action) {
    match a
    case AttachFile | RetrieveAttachment | RemoveAttachment | GetAttachmentInfo => e.supportsAttach
    case ActionButton => e.supportsActionButton
    case EvaluateFormat => e.supportsEvaluateFormat
    case _ => true
  }

  /** The actions of `acts` the entity supports, in their order. */
  function Supported(e: EntityConfig, acts: seq<Action>): seq<Action>
    decreases |acts|
  {
    if |acts| == 0 then []
    else (if Supports(e, acts[0]) then [acts[0]] else []) + Supported(e, acts[1..])
  }

  /** The filter keeps only supported actions drawn from its input, and every
      supported action of the input. */
  lemma {:induction false} SupportedMembers(e: EntityConfig, acts: seq<Action>)
    ensures forall a :: a in Supported(e, acts) <==> a in acts && Supports(e, a)
    decreases |acts|
  {
    if |acts| > 0 {
      SupportedMembers(e, acts[1..]);
      assert acts == [acts[0]] + acts[1..];
    }
  }

  /** The `ops` list `generate_tools` builds for one entity. */
  function Ops(e: EntityConfig): seq<Action> {
    [Search, Get, Create, Update, Delete]
    + [Upsert]
    + (if e.supportsAttach then [AttachFile, RetrieveAttachment, RemoveAttachment, GetAttachmentInfo] else [])
    + (if e.supportsActionButton then [ActionButton] else [])
    + (if e.supportsEvaluateFormat then [EvaluateFormat] else [])
  }

  lemma {:induction false} SupportedConcat(e: EntityConfig, xs: seq<Action>, ys: seq<Action>)
    ensures Supported(e, xs + ys) == Supported(e, xs) + Supported(e, ys)
    decreases |xs|
  {
    if |xs| > 0 {
      assert (xs + ys)[1..] == xs[1..] + ys;
      SupportedConcat(e, xs[1..], ys);
    } else {
      assert xs + ys == ys;
    }
  }

  lemma {:induction false} AllSupported(e: EntityConfig, xs: seq<Action>)
    requires forall k :: 0 <= k < |xs| ==> Supports(e, xs[k])
    ensures Supported(e, xs) == xs
    decreases |xs|
  {
    if |xs| > 0 {
      AllSupported(e, xs[1..]);
      assert xs == [xs[0]] + xs[1..];
    }
  }

  lemma {:induction false} NoneSupported(e: EntityConfig, xs: seq<Action>)
    requires forall k :: 0 <= k < |xs| ==> !Supports(e, xs[k])
    ensures Supported(e, xs) == []
    decreases |xs|
  {
    if |xs| > 0 {
      NoneSupported(e, xs[1..]);
    }
  }

  /** Filtering a four-part table filters each part; the core part always
      passes whole, the attachment group passes exactly when attachments are
      supported, and each single-action part exactly when its flag is set. */
  lemma {:induction false} GroupsSupported(e: EntityConfig, core: seq<Action>, at: seq<Action>, ab: seq<Action>, ev: seq<Action>)
    requires core == [Search, Get, Create, Update, Delete, Upsert]
    requires at == [AttachFile, RetrieveAttachment, RemoveAttachment, GetAttachmentInfo]
    requires ab == [ActionButton] && ev == [EvaluateFormat]
    ensures Supported(e, core + at + ab + ev) ==
      core + (if e.supportsAttach then at else []) + (if e.supportsActionButton then ab else [])
      + (if e.supportsEvaluateFormat then ev else [])
  {
    SupportedConcat(e, core + at + ab, ev);
    SupportedConcat(e, core + at, ab);
    SupportedConcat(e, core, at);
    AllSupported(e, core);
    if e.supportsAttach {
      AllSupported(e, at);
    } else {
      NoneSupported(e, at);
    }
  }

  /** The op list is the generator table filtered by the entity's flags, in
      table order: the six core operations always, each optional group exactly
      when its flag is set. */
  lemma {:induction false} OpsAreSupportedActions(e: EntityConfig)
    ensures Ops(e) == Supported(e, Actions)
  {
    var core := [Search, Get, Create, Update, Delete, Upsert];
    var at := [AttachFile, RetrieveAttachment, RemoveAttachment, GetAttachmentInfo];
    GroupsSupported(e, core, at, [ActionButton], [EvaluateFormat]);
    TableGroups(core, at);
    OpsGroups(e, core);
  }

  lemma TableGroups(core: seq<Action>, at: seq<Action>)
    requires core == [Search, Get, Create, Update, Delete, Upsert]
    requires at == [AttachFile, RetrieveAttachment, RemoveAttachment, GetAttachmentInfo]
    ensures Actions == core + at + [ActionButton] + [EvaluateFormat]
  {
  }

  lemma OpsGroups(e: EntityConfig, core: seq<Action>)
    requires core == [Search, Get, Create, Update, Delete, Upsert]
    ensures Ops(e) == core + (if e.supportsAttach then [AttachFile, RetrieveAttachment, RemoveAttachment, GetAttachmentInfo] else [])
      + (if e.supportsActionButton then [ActionButton] else [])
      + (if e.supportsEvaluateFormat then [EvaluateFormat] else [])
  {
    assert [Search, Get, Create, Update, Delete] + [Upsert] == core;
  }

  /** Each entity gets 6 tools, plus 4 with attachments, plus one per optional flag. */
  lemma OpsCount(e: EntityConfig)
    ensures |Ops(e)| == 6 + (if e.supportsAttach then 4 else 0)
      + (if e.supportsActionButton then 1 else 0) + (if e.supportsEvaluateFormat then 1 else 0)
  {
  }

  lemma ActionsDistinct()
    ensures Distinct(Actions)
  {
  }

  lemma {:induction false} SupportedDistinct(e: EntityConfig, xs: seq<Action>)
    requires Distinct(xs)
    ensures Distinct(Supported(e, xs))
    decreases |xs|
  {
    if |xs| > 0 {
      assert Distinct(xs[1..]) by {
        forall p, q | 0 <= p < q < |xs[1..]| ensures xs[1..][p] != xs[1..][q] {
          assert xs[1..][p] == xs[p + 1] && xs[1..][q] == xs[q + 1];
        }
      }
      SupportedDistinct(e, xs[1..]);
      SupportedMembers(e, xs[1..]);
      var rest := Supported(e, xs[1..]);
      var head := if Supports(e, xs[0]) then [xs[0]] else [];
      var r := head + rest;
      assert xs[0] !in xs[1..] by {
        forall q | 0 <= q < |xs[1..]| ensures xs[1..][q] != xs[0] {
          assert xs[1..][q] == xs[q + 1];
        }
      }
      forall p, q | 0 <= p < q < |r| ensures r[p] != r[q] {
        if |head| == 1 && p == 0 {
          assert r[q] == rest[q - 1] && rest[q - 1] in rest;
        } else {
          assert r[p] == rest[p - |head|] && r[q] == rest[q - |head|];
        }
      }
    }
  }

  /** An action is in an entity's op list exactly when the entity's flags
      support it, and no action is listed twice. */
  lemma {:induction false} OpsExact(e: EntityConfig)
    ensures Distinct(Ops(e))
    ensures forall a :: a in Ops(e) <==> Supports(e, a)
  {
    OpsAreSupportedActions(e);
    assert Distinct(Supported(e, Actions)) by {
      ActionsDistinct();
      SupportedDistinct(e, Actions);
    }
    assert forall a :: a in Supported(e, Actions) <==> Supports(e, a) by {
      ActionsComplete();
      SupportedMembers(e, Actions);
    }
  }

  /** The generator table names every action. */
  lemma ActionsComplete()
    ensures forall a :: a in Actions
  {
    forall a ensures a in Actions {
      match a
      case Search => assert Actions[0] == Search;
      case Get => assert Actions[1] == Get;
      case Create => assert Actions[2] == Create;
      case Update => assert Actions[3] == Update;
      case Delete => assert Actions[4] == Delete;
      case Upsert => assert Actions[5] == Upsert;
      case AttachFile => assert Actions[6] == AttachFile;
      case RetrieveAttachment => assert Actions[7] == RetrieveAttachment;
      case RemoveAttachment => assert Actions[8] == RemoveAttachment;
      case GetAttachmentInfo => assert Actions[9] == GetAttachmentInfo;
      case ActionButton => assert Actions[10] == ActionButton;
      case EvaluateFormat => assert Actions[11] == EvaluateFormat;
    }
  }

  // ---------------------------------------------------------------------
  // generate_tools
  // ---------------------------------------------------------------------

  /** One generated tool with its dispatch target. */
  datatype Entry = Entry(tool: Tool, entityKey: string, action: Action)

  /** The tools for one entity: for each op, in order, the generator's output. */
  function EntityEntries(e: EntityConfig, ops: seq<Action>): (r: seq<Entry>)
    ensures |r| == |ops|
    ensures forall i :: 0 <= i < |r| ==>
      (r[i].action == ops[i] && r[i].entityKey == e.key && r[i].tool == Generate(ops[i], e).0)
  {
    if |ops| == 0 then [] else [Entry(Generate(ops[0], e).0, e.key, ops[0])] + EntityEntries(e, ops[1..])
  }

  /** All entries, in registry order then op order. */
  function AllEntries(reg: Table): seq<Entry> {
    if |reg| == 0 then [] else EntityEntries(reg[0].1, Ops(reg[0].1)) + AllEntries(reg[1..])
  }

  function ToolsOf(entries: seq<Entry>): (r: seq<Tool>)
    ensures |r| == |entries|
    ensures forall i :: 0 <= i < |r| ==> r[i] == entries[i].tool
  {
    if |entries| == 0 then [] else [entries[0].tool] + ToolsOf(entries[1..])
  }

  function NamesOf(entries: seq<Entry>): (r: seq<string>)
    ensures |r| == |entries|
    ensures forall i :: 0 <= i < |r| ==> r[i] == entries[i].tool.name
  {
    if |entries| == 0 then [] else [entries[0].tool.name] + NamesOf(entries[1..])
  }

  /** `dispatch[tool.name] = (entity.key, action)` for each entry in turn. */
  /** The dispatch entry of a generated tool: its entity key and action name. */
  function Target(x: Entry): (string, string) {
    (x.entityKey, Name(x.action))
  }

  /** The dispatch map routes the entry's tool name to the entry's target. */
  predicate Dispatches(d: map<string, (string, string)>, x: Entry) {
    x.tool.name in d && d[x.tool.name] == Target(x)
  }

  function DispatchOf(entries: seq<Entry>): (r: map<string, (string, string)>)
    ensures forall n :: n in r <==> n in NamesOf(entries)
  {
    if |entries| == 0 then map[]
    else
      var init := entries[..|entries| - 1];
      var last := entries[|entries| - 1];
      NamesOfSnoc(entries);
      DispatchOf(init)[last.tool.name := Target(last)]
  }

  lemma NamesOfSnoc(entries: seq<Entry>)
    requires |entries| > 0
    ensures NamesOf(entries) == NamesOf(entries[..|entries| - 1]) + [entries[|entries| - 1].tool.name]
  {
    assert forall i :: 0 <= i < |entries| - 1 ==> entries[..|entries| - 1][i] == entries[i];
  }

  lemma NamesOfMembers(entries: seq<Entry>)
    ensures forall n :: n in NamesOf(entries) <==> exists i :: 0 <= i < |entries| && entries[i].tool.name == n
  {
  }

  /** `generate_tools()` over a registry: the tools and the dispatch map. */
  function GenerateTools(reg: Table): (r: (seq<Tool>, map<string, (string, string)>))
    ensures |r.0| == |AllEntries(reg)|
    ensures forall n :: n in r.1 <==> exists i :: 0 <= i < |r.0| && r.0[i].name == n
  {
    var entries := AllEntries(reg);
    NamesOfMembers(entries);
    (ToolsOf(entries), DispatchOf(entries))
  }

  // ---------------------------------------------------------------------
  // Tool-name uniqueness
  // ---------------------------------------------------------------------

  /** Only `get` is a proper prefix-plus-underscore of another action name. */
  lemma OnlyGetExtends(a: Action, b: Action)
    requires |Name(a)| < |Name(b)|
    requires Name(b)[..|Name(a)|] == Name(a) && Name(b)[|Name(a)|] == '_'
    ensures a == Get && b == GetAttachmentInfo
  {
    var x, y := Name(a), Name(b);
    assert x[0] == y[0] && x[1] == y[1] && x[2] == y[2] by {
      assert y[..|x|][0] == y[0] && y[..|x|][1] == y[1] && y[..|x|][2] == y[2];
    }
  }

  lemma SplitAtUnderscore(a: string, n: string, b: string, m: string)
    requires a + "_" + n == b + "_" + m
    requires |a| <= |b|
    ensures |a| == |b| ==> a == b && n == m
    ensures |a| < |b| ==> b[..|a|] == a && b[|a|] == '_' && n == b[|a| + 1..] + "_" + m
  {
    var s := a + "_" + n;
    assert s[..|a|] == a;
    if |a| == |b| {
      assert a == s[..|a|] == b;
      assert n == s[|a| + 1..] == m;
    } else {
      assert b == s[..|b|];
      assert n == s[|a| + 1..];
    }
  }

  lemma DropToolPrefix(a: string, n: string, b: string, m: string)
    requires "agiloft_" + a + "_" + n == "agiloft_" + b + "_" + m
    ensures a + "_" + n == b + "_" + m
  {
    var s := "agiloft_" + a + "_" + n;
    assert s == "agiloft_" + (a + "_" + n);
    assert s == "agiloft_" + (b + "_" + m);
    assert a + "_" + n == s[8..] == b + "_" + m;
  }

  lemma GetAttachmentInfoTail()
    ensures Name(GetAttachmentInfo)[4..] == "attachment_info"
  {
  }

  /** A tool name determines its action and entity name, except that `get`
      of an entity keyed "attachment_info_" + x spells the same name as
      `get_attachment_info` of x. */
  lemma ToolNameParts(a: Action, n: string, b: Action, m: string)
    requires "agiloft_" + Name(a) + "_" + n == "agiloft_" + Name(b) + "_" + m
    ensures (a == b && n == m)
      || (a == Get && b == GetAttachmentInfo && n == "attachment_info_" + m)
      || (b == Get && a == GetAttachmentInfo && m == "attachment_info_" + n)
  {
    DropToolPrefix(Name(a), n, Name(b), m);
    if |Name(a)| <= |Name(b)| {
      SplitAtUnderscore(Name(a), n, Name(b), m);
      if |Name(a)| < |Name(b)| {
        OnlyGetExtends(a, b);
        GetAttachmentInfoTail();
      } else {
        NameInjective(a, b);
      }
    } else {
      SplitAtUnderscore(Name(b), m, Name(a), n);
      OnlyGetExtends(b, a);
      GetAttachmentInfoTail();
    }
  }

  /** Two tools of entities whose keys do not start with "attachment_info_"
      have the same name only for the same action and the same key (plural
      key for search). */
  lemma SameNameSameEntry(a: Action, e: EntityConfig, b: Action, f: EntityConfig)
    requires !Strings.IsPrefix("attachment_info_", e.key) && !Strings.IsPrefix("attachment_info_", f.key)
    requires ToolName(a, e, a == Search) == ToolName(b, f, b == Search)
    ensures a == b
    ensures a == Search ==> e.keyPlural == f.keyPlural
    ensures a != Search ==> e.key == f.key
  {
    var n := if a == Search then e.keyPlural else e.key;
    var m := if b == Search then f.keyPlural else f.key;
    ToolNameParts(a, n, b, m);
  }

  /** Within one entity, distinct ops give distinct names. */
  lemma EntityNamesDistinct(e: EntityConfig, ops: seq<Action>)
    requires Distinct(ops)
    requires !Strings.IsPrefix("attachment_info_", e.key)
    ensures Distinct(NamesOf(EntityEntries(e, ops)))
  {
    var r := EntityEntries(e, ops);
    var ns := NamesOf(r);
    forall i, j | 0 <= i < j < |ns| ensures ns[i] != ns[j] {
      if ns[i] == ns[j] {
        SameNameSameEntry(ops[i], e, ops[j], e);
      }
    }
  }

  lemma DistinctConcat(xs: seq<string>, ys: seq<string>)
    requires Distinct(xs) && Distinct(ys)
    requires forall i, j :: 0 <= i < |xs| && 0 <= j < |ys| ==> xs[i] != ys[j]
    ensures Distinct(xs + ys)
  {
    var zs := xs + ys;
    forall i, j | 0 <= i < j < |zs| ensures zs[i] != zs[j] {
      if j < |xs| {
      } else if i >= |xs| {
        assert zs[i] == ys[i - |xs|] && zs[j] == ys[j - |xs|];
      } else {
        assert zs[j] == ys[j - |xs|];
      }
    }
  }

  /** Where an entry comes from: a record of the registry, one of its ops. */
  predicate GeneratedFrom(reg: Table, k: int, x: Entry) {
    && 0 <= k < |reg|
    && x.entityKey == reg[k].1.key
    && x.action in Ops(reg[k].1)
    && x.tool == Generate(x.action, reg[k].1).0
  }

  /** Every entry comes from a record of the registry, under that record's key. */
  lemma {:induction false} EntriesFromRegistry(reg: Table, i: int)
    requires 0 <= i < |AllEntries(reg)|
    ensures exists k :: GeneratedFrom(reg, k, AllEntries(reg)[i])
  {
    var head := EntityEntries(reg[0].1, Ops(reg[0].1));
    if i < |head| {
      assert AllEntries(reg)[i] == head[i];
      assert GeneratedFrom(reg, 0, head[i]);
    } else {
      assert AllEntries(reg)[i] == AllEntries(reg[1..])[i - |head|];
      EntriesFromRegistry(reg[1..], i - |head|);
      var k :| GeneratedFrom(reg[1..], k, AllEntries(reg[1..])[i - |head|]);
      assert reg[1..][k] == reg[k + 1];
      assert GeneratedFrom(reg, k + 1, AllEntries(reg)[i]);
    }
  }

  lemma WellFormedTail(reg: Table)
    requires WellFormed(reg) && |reg| > 0
    ensures WellFormed(reg[1..])
  {
    assert forall i :: 0 <= i < |reg| - 1 ==> reg[1..][i] == reg[i + 1];
  }

  /** A tool of the first record never shares a name with a tool of a later one. */
  lemma HeadNameNotLater(reg: Table, x: Entry, j: int)
    requires WellFormed(reg) && |reg| > 0
    requires GeneratedFrom(reg, 0, x)
    requires 0 <= j < |AllEntries(reg[1..])|
    ensures x.tool.name != AllEntries(reg[1..])[j].tool.name
  {
    var y := AllEntries(reg[1..])[j];
    EntriesFromRegistry(reg[1..], j);
    var k :| GeneratedFrom(reg[1..], k, y);
    var e, f := reg[0].1, reg[k + 1].1;
    assert reg[1..][k] == reg[k + 1];
    if x.tool.name == y.tool.name {
      SameNameSameEntry(x.action, e, y.action, f);
    }
  }

  /** Over a well-formed registry every generated tool name is unique. */
  lemma {:induction false} ToolNamesDistinct(reg: Table)
    requires WellFormed(reg)
    ensures Distinct(NamesOf(AllEntries(reg)))
  {
    if |reg| > 0 {
      var e := reg[0].1;
      var head := EntityEntries(e, Ops(e));
      var rest := AllEntries(reg[1..]);
      OpsExact(e);
      EntityNamesDistinct(e, Ops(e));
      WellFormedTail(reg);
      ToolNamesDistinct(reg[1..]);
      forall i, j | 0 <= i < |head| && 0 <= j < |rest|
        ensures NamesOf(head)[i] != NamesOf(rest)[j]
      {
        assert GeneratedFrom(reg, 0, head[i]);
        HeadNameNotLater(reg, head[i], j);
      }
      DistinctConcat(NamesOf(head), NamesOf(rest));
      NamesOfConcat(head, rest);
    }
  }

  lemma NamesOfConcat(xs: seq<Entry>, ys: seq<Entry>)
    ensures NamesOf(xs + ys) == NamesOf(xs) + NamesOf(ys)
  {
  }

  /** With unique names the dispatch map holds each entry's (key, action name). */
  lemma {:induction false} DispatchOfDistinct(entries: seq<Entry>)
    requires Distinct(NamesOf(entries))
    ensures |DispatchOf(entries)| == |entries|
    ensures forall i :: 0 <= i < |entries| ==> Dispatches(DispatchOf(entries), entries[i])
  {
    DispatchOfSize(entries);
    DispatchOfValues(entries);
  }

  /** With distinct names every entry adds one key to the dispatch map. */
  lemma {:induction false} DispatchOfSize(entries: seq<Entry>)
    requires Distinct(NamesOf(entries))
    ensures |DispatchOf(entries)| == |entries|
  {
    if |entries| > 0 {
      var init := entries[..|entries| - 1];
      var last := entries[|entries| - 1];
      NamesOfSnoc(entries);
      DistinctInit(NamesOf(init), last.tool.name);
      DispatchOfSize(init);
      assert last.tool.name !in DispatchOf(init);
    }
  }

  /** With distinct names no later entry overwrites an earlier one. */
  lemma {:induction false} DispatchOfValues(entries: seq<Entry>)
    requires Distinct(NamesOf(entries))
    ensures forall i :: 0 <= i < |entries| ==> Dispatches(DispatchOf(entries), entries[i])
  {
    forall i | 0 <= i < |entries|
      ensures Dispatches(DispatchOf(entries), entries[i])
    {
      DispatchOfAt(entries, i);
    }
  }

  lemma {:induction false} DispatchOfAt(entries: seq<Entry>, i: int)
    requires Distinct(NamesOf(entries)) && 0 <= i < |entries|
    ensures Dispatches(DispatchOf(entries), entries[i])
    decreases |entries|
  {
    var init := entries[..|entries| - 1];
    var last := entries[|entries| - 1];
    if i < |init| {
      NamesOfSnoc(entries);
      DistinctInit(NamesOf(init), last.tool.name);
      DispatchOfAt(init, i);
      assert init[i] == entries[i];
      assert NamesOf(init)[i] == entries[i].tool.name;
    }
  }

  lemma DistinctInit(xs: seq<string>, y: string)
    requires Distinct(xs + [y])
    ensures Distinct(xs) && y !in xs
  {
    var zs := xs + [y];
    assert forall i :: 0 <= i < |xs| ==> zs[i] == xs[i];
    assert zs[|xs|] == y;
  }

  /** Over a well-formed registry the dispatch map has one entry per tool, and
      each tool dispatches to the entity key and action name it was generated for. */
  lemma GenerateToolsDispatch(reg: Table)
    requires WellFormed(reg)
    ensures |GenerateTools(reg).1| == |GenerateTools(reg).0|
    ensures forall i :: 0 <= i < |AllEntries(reg)| ==> Dispatches(GenerateTools(reg).1, AllEntries(reg)[i])
  {
    ToolNamesDistinct(reg);
    DispatchOfDistinct(AllEntries(reg));
  }

  /** The tool count is the sum of the op-list lengths. */
  function OpCount(reg: Table): nat {
    if |reg| == 0 then 0 else |Ops(reg[0].1)| + OpCount(reg[1..])
  }

  lemma {:induction false} EntriesCount(reg: Table)
    ensures |AllEntries(reg)| == OpCount(reg)
  {
    if |reg| > 0 {
      EntriesCount(reg[1..]);
    }
  }

  lemma {:induction false} FullFlagsCount(reg: Table)
    requires forall i :: 0 <= i < |reg| ==>
      reg[i].1.supportsAttach && reg[i].1.supportsActionButton && reg[i].1.supportsEvaluateFormat
    ensures OpCount(reg) == 12 * |reg|
  {
    if |reg| > 0 {
      OpsCount(reg[0].1);
      assert forall i :: 0 <= i < |reg[1..]| ==> reg[1..][i] == reg[i + 1];
      FullFlagsCount(reg[1..]);
    }
  }

  /** The shipped registry yields 84 tools, 12 per entity, with a dispatch map
      of the same size. */
  lemma ShippedToolCount()
    ensures |GenerateTools(Registry).0| == 84
    ensures |GenerateTools(Registry).1| == 84
  {
    RegistryWellFormed();
    AllCapabilitiesEnabled();
    EntriesCount(Registry);
    FullFlagsCount(Registry);
    GenerateToolsDispatch(Registry);
  }
}
