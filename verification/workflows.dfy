/**
 * The composite workflow handlers (src/workflow_handlers.py): each chains a
 * few record calls, decides from their answers what to do next, and reports
 * in an enriched envelope with next steps and warnings. The clock, the date
 * parser and the filesystem are inputs, and so is the prose of the messages:
 * a message is a tagged value carrying exactly what the source interpolates.
 */
module WorkflowHandlers {
  import opened Wrappers
  import opened Errors
  import opened Json
  import opened RecordApi
  import Strings
  import TH = ToolHandlers

  // ---------------------------------------------------------------------
  // Messages and envelopes
  // ---------------------------------------------------------------------

  /** Every next step, warning, health issue and error message the
      workflows emit, with the values they interpolate. */
  datatype Note =
      // preflight_create_contract
    | SelectContractType
    | ContractTypeNotFound(contractType: Value)
    | ChooseActiveType
    | CompanyNotFound(companyName: Value)
    | CreateCompanyFirst
    | TypeMismatch(partyType: Value, companyType: Value)
    | CompanyNotActive(companyName: Value, status: Value)
    | ProvideCompanyName
    | ReadyToCreate(contractType: Value)
    | LinkedFieldsNotice
      // create_contract_with_company
    | CompanyMissing(companyName: Value)
    | ContractCreated
      // get_contract_summary
    | CompanyFetchFailed(error: string)
    | ExpiredDaysAgo(daysAgo: int)
    | ExpiresUrgently(days: int)
    | ExpiresSoon(days: int)
    | MissingAmount
    | NoOwner
    | NotSigned
    | StatusIs(status: Value)
    | SummaryActions
      // find_expiring_contracts
    | EndDateUnparsable(id: Value, endDate: Value)
    | UrgentContracts(count: int)
    | UpcomingContracts(count: int)
    | NoneExpiring(window: Value)
      // onboard_company_with_contact
    | CompanyNameRequired
    | CompanyExistsSkipped(companyName: Value, id: Value)
    | CompanyExists(companyName: Value, id: Value)
    | NoContactCreated
    | Onboarded
      // attach_file_to_contract
    | FilePathRequired
    | SandboxPath(path: string)
    | FileNotFound(path: string)
    | FileUnreadable(path: string, error: string)
    | EmptyFile
    | UntitledContract(contractId: Value)
    | NoAttachmentId(response: Value)
    | FileAttached(fileName: Value, contractId: Value, attachmentId: Value)
      // `str(e)` of an exception caught by a handler
    | Exception(text: string)

  /** The human wording of the notes. */
  type Prose = Note -> string

  /** The text a note is rendered as: an exception's own text, otherwise the prose. */
  function NoteText(n: Note, prose: Prose): string {
    if n.Exception? then n.text else prose(n)
  }

  function Texts(notes: seq<Note>, prose: Prose): (r: seq<Value>)
    ensures |r| == |notes|
    ensures forall i :: 0 <= i < |notes| ==> r[i] == Str(NoteText(notes[i], prose))
  {
    if |notes| == 0 then [] else [Str(NoteText(notes[0], prose))] + Texts(notes[1..], prose)
  }

  /** `_workflow_response` / `_workflow_error`, before serialisation. */
  datatype Report =
    | Completed(operation: string, data: Object, nextSteps: seq<Note>, warnings: seq<Note>)
    | Failed(operation: string, error: Note, partialData: Option<Object>)

  /** What a workflow produced: a report, or an exception raised before its `try`. */
  datatype Outcome = Reports(report: Report) | Escapes(error: Error)

  /** The serialised dict: `next_steps` and `warnings` only when non-empty,
      `partial_data` only when supplied. */
  function RenderReport(rep: Report, prose: Prose): (r: Object)
    ensures "success" in r && r["success"] == Bool(rep.Completed?)
    ensures "operation" in r && r["operation"] == Str(rep.operation)
    ensures "data" in r <==> rep.Completed?
    ensures rep.Completed? ==> r["data"] == Obj(rep.data)
    ensures "next_steps" in r <==> rep.Completed? && |rep.nextSteps| > 0
    ensures "next_steps" in r ==> r["next_steps"] == Arr(Texts(rep.nextSteps, prose))
    ensures "warnings" in r <==> rep.Completed? && |rep.warnings| > 0
    ensures "warnings" in r ==> r["warnings"] == Arr(Texts(rep.warnings, prose))
    ensures "error" in r <==> rep.Failed?
    ensures rep.Failed? ==> r["error"] == Str(NoteText(rep.error, prose))
    ensures "partial_data" in r <==> rep.Failed? && rep.partialData.Some?
    ensures "partial_data" in r ==> r["partial_data"] == Obj(rep.partialData.value)
    ensures forall k :: k in r ==>
      k in {"success", "operation", "data", "next_steps", "warnings", "error", "partial_data"}
  {
    var base := map["success" := Bool(rep.Completed?), "operation" := Str(rep.operation)];
    match rep
    case Completed(_, data, next, warnings) =>
      var withData := base["data" := Obj(data)];
      var withNext := if |next| > 0 then withData["next_steps" := Arr(Texts(next, prose))] else withData;
      if |warnings| > 0 then withNext["warnings" := Arr(Texts(warnings, prose))] else withNext
    case Failed(_, err, partial) =>
      var withError := base["error" := Str(NoteText(err, prose))];
      if partial.Some? then withError["partial_data" := Obj(partial.value)] else withError
  }

  /** `partial_data=data if data else None` */
  function PartialData(data: Object): (r: Option<Object>)
    ensures r.Some? <==> |data| > 0
  {
    if |data| > 0 then Some(data) else None
  }

  // ---------------------------------------------------------------------
  // The world outside the handlers
  // ---------------------------------------------------------------------

  /** What `open` finds at a path. */
  datatype FileState = NotAFile | Unreadable(error: string) | Contents(bytes: Bytes)

  /** The handlers' environment: the record API, the message prose, the
      whole days from now to the date a value parses as (None when
      `strptime` rejects it), the date `n` days from now as `%Y-%m-%d`,
      `os.path.expanduser` and the filesystem. */
  datatype Env = Env(
    api: Api,
    prose: Prose,
    daysUntil: Value -> Option<int>,
    dateIn: int -> string,
    expandUser: string -> string,
    readFile: string -> FileState)

  // ---------------------------------------------------------------------
  // Python operations on values of unknown shape
  // ---------------------------------------------------------------------

  /** `v.get(k, default)`: only dicts have `.get`. */
  function GetIn(v: Value, k: string, default: Value): (r: Result<Value, Error>)
    ensures r.Ok? <==> v.Obj?
    ensures r.Ok? ==> r.value == Lookup(v.fields, k, default)
    ensures r.Err? ==> r.error == Builtin(AttributeError)
  {
    if v.Obj? then Ok(Lookup(v.fields, k, default)) else Err(Builtin(AttributeError))
  }

  /** `v[0]`: a list's first item, a string's first character; a dict of
      string keys has no key 0, and scalars cannot be indexed. */
  function First(v: Value): (r: Result<Value, Error>)
    ensures v.Arr? && |v.items| > 0 ==> r == Ok(v.items[0])
    ensures r.Ok? ==> v.Arr? || v.Str?
  {
    match v
    case Arr(xs) => if |xs| > 0 then Ok(xs[0]) else Err(Builtin(IndexError))
    case Str(s) => if |s| > 0 then Ok(Str([s[0]])) else Err(Builtin(IndexError))
    case Obj(_) => Err(Builtin(KeyError))
    case _ => Err(Builtin(TypeError))
  }

  function Failure(op: string, e: Error, partial: Option<Object>): Report {
    Failed(op, Exception(Text(e)), partial)
  }

  /** The `"company_name='...'"` lookup every workflow but preflight uses;
      the name is interpolated as it is, without escaping. */
  function CompanyQuery(name: string): string {
    "company_name='" + name + "'"
  }

  const CompanyFields: seq<string> := ["id", "company_name", "type_of_company", "status"]

  // ---------------------------------------------------------------------
  // Linked fields
  // ---------------------------------------------------------------------

  /** The contract fields that link to other tables. */
  const ContractLinkedFields: set<string> := {"company_name", "contract_type", "internal_contract_owner"}

  /** A value `_ensure_linked_prefix` rewrites: a non-empty string without the colon. */
  predicate NeedsPrefix(v: Value) {
    v.Str? && |v.s| > 0 && v.s[0] != ':'
  }

  /** `_ensure_linked_prefix`: listed fields holding a non-empty string get a
      leading colon unless they have one; the key set and every other entry
      stay as they are. */
  function EnsureLinkedPrefix(d: Object, linked: set<string>): (r: Object)
    ensures r.Keys == d.Keys
    ensures forall k :: k in d && !(k in linked && NeedsPrefix(d[k])) ==> r[k] == d[k]
    ensures forall k :: k in d && k in linked && NeedsPrefix(d[k]) ==> r[k] == Str(":" + d[k].s)
  {
    map k | k in d :: if k in linked && NeedsPrefix(d[k]) then Str(":" + d[k].s) else d[k]
  }

  /** Prefixing twice is prefixing once, and afterwards every listed
      non-empty string starts with the colon. */
  lemma EnsureLinkedPrefixIdempotent(d: Object, linked: set<string>)
    ensures EnsureLinkedPrefix(EnsureLinkedPrefix(d, linked), linked) == EnsureLinkedPrefix(d, linked)
    ensures forall k :: k in linked && k in d && d[k].Str? && |d[k].s| > 0 ==>
      var v := EnsureLinkedPrefix(d, linked)[k]; v.Str? && |v.s| > 0 && v.s[0] == ':'
  {
    var once := EnsureLinkedPrefix(d, linked);
    forall k | k in once ensures !(k in linked && NeedsPrefix(once[k])) {
      if k in linked && NeedsPrefix(d[k]) {
        assert once[k].s[0] == ':';
      }
    }
  }

  // ---------------------------------------------------------------------
  // preflight_create_contract
  // ---------------------------------------------------------------------

  const PreflightOp := "preflight_create_contract"
  const TypeListFields: seq<string> :=
    ["id", "contract_type", "party_type", "description",
     "default_contract_term_in_months", "default_autorenewal_term_in_months"]
  const TypeLookupFields: seq<string> := TypeListFields + ["available_for_record_types"]
  const ActiveTypeFields: seq<string> := ["id", "contract_type", "party_type"]

  /** The check of a contract type against the named company. */
  datatype CompanyCheck = CompanyCheck(company: Option<Value>, ready: bool, nextSteps: seq<Note>, warnings: seq<Note>)

  /** Step 2 of the preflight: without a company name nothing is checked;
      an unknown company makes the contract not ready; a known one is
      compared with the contract type's party type and its status. */
  function CheckCompany(companyName: Value, typeInfo: Value, api: Api): (r: (seq<Call>, Result<CompanyCheck, Error>))
    ensures !Truthy(companyName) ==> r == ([], Ok(CompanyCheck(None, true, [ProvideCompanyName], [])))
    ensures Truthy(companyName) ==> |r.0| == 1 && r.0[0].SearchRecords?
    ensures r.1.Ok? && r.1.value.company.Some? ==> typeInfo.Obj? && r.1.value.company.value.Obj?
    ensures r.1.Ok? ==> r.1.value.ready || |r.1.value.warnings| > 0
  {
    if !Truthy(companyName) then ([], Ok(CompanyCheck(None, true, [ProvideCompanyName], [])))
    else
      var call := SearchRecords("/company", Str("company_name~='" + PyStr(companyName) + "'"), StrList(CompanyFields));
      match Ask(api, call)
      case Err(e) => ([call], Err(e))
      case Ok(found) =>
        if !Truthy(found) then
          ([call], Ok(CompanyCheck(None, false, [CreateCompanyFirst], [CompanyNotFound(companyName)])))
        else
          match First(found)
          case Err(e) => ([call], Err(e))
          case Ok(company) =>
            if !typeInfo.Obj? || !company.Obj? then ([call], Err(Builtin(AttributeError)))
            else
              ([call], Ok(CompanyCheck(Some(company), true, [], CompanyWarnings(companyName, typeInfo.fields, company.fields))))
  }

  /** The party-type mismatch warning, then the inactive-company warning. */
  function CompanyWarnings(companyName: Value, typeInfo: Object, company: Object): seq<Note> {
    var partyType := Lookup(typeInfo, "party_type", Str(""));
    var companyType := Lookup(company, "type_of_company", Str(""));
    var status := Lookup(company, "status", Null);
    (if Truthy(partyType) && Truthy(companyType) && !PyEq(partyType, companyType)
     then [TypeMismatch(partyType, companyType)] else [])
    + (if !PyEq(status, Str("Active")) then [CompanyNotActive(companyName, status)] else [])
  }

  /** A type mismatch is reported exactly when both types are given and
      differ; an inactive company exactly when its status is not "Active". */
  lemma CompanyWarningsIff(companyName: Value, typeInfo: Object, company: Object)
    ensures var partyType := Lookup(typeInfo, "party_type", Str(""));
      var companyType := Lookup(company, "type_of_company", Str(""));
      TypeMismatch(partyType, companyType) in CompanyWarnings(companyName, typeInfo, company)
      <==> Truthy(partyType) && Truthy(companyType) && !PyEq(partyType, companyType)
    ensures var status := Lookup(company, "status", Null);
      CompanyNotActive(companyName, status) in CompanyWarnings(companyName, typeInfo, company)
      <==> !PyEq(status, Str("Active"))
    ensures |CompanyWarnings(companyName, typeInfo, company)| <= 2
  {
  }

  function RequiredFieldsReminder(contractType: Value, companyName: Value, company: Option<Value>): Object {
    var base := map[
      "record_type" := Str("Contract, Child Contract, or Amendment"),
      "auto_renewal_term_in_months" := Str("integer"),
      "confidential" := Str("string"),
      "evaluation_frequency" := Str("integer"),
      "contract_type" := Str(":" + PyStr(contractType))];
    if Truthy(companyName) && company.Some? && Truthy(company.value)
    then base["company_name" := Str(":" + PyStr(companyName))] else base
  }

  function LinkedFieldsReminder(contractType: Value, companyName: Value): Object {
    map[
      "contract_type" := Str(":" + PyStr(contractType)),
      "company_name" := Str(if Truthy(companyName) then ":" + PyStr(companyName) else "(provide company name with : prefix)"),
      "internal_contract_owner" := Str(":<owner name> (e.g. :Robert Barash)")]
  }

  /** Step 3: the reminders, and `ready_to_create = ready and not warnings`. */
  function PreflightReport(contractType: Value, companyName: Value, typeInfo: Value, check: CompanyCheck, prose: Prose): (r: Report)
    ensures r.Completed? && r.warnings == check.warnings
    ensures "ready_to_create" in r.data && r.data["ready_to_create"] == Bool(check.ready && |check.warnings| == 0)
    ensures "contract_type" in r.data
  {
    var ready := check.ready && |check.warnings| == 0;
    var data := map["contract_type" := typeInfo];
    var data := if check.company.Some? then data["company" := check.company.value] else data;
    var data := data["required_fields" := Obj(RequiredFieldsReminder(contractType, companyName, check.company))]
      ["linked_fields_warning" := Str(prose(LinkedFieldsNotice))]
      ["linked_fields" := Obj(LinkedFieldsReminder(contractType, companyName))]
      ["ready_to_create" := Bool(ready)];
    Completed(PreflightOp, data, check.nextSteps + (if ready then [ReadyToCreate(contractType)] else []), check.warnings)
  }

  /** A preflight's report is consistent when its readiness flag is set
      exactly when a contract type was given and no warning was raised. */
  predicate ReadinessConsistent(contractType: Value, rep: Report) {
    rep.Completed? ==>
      && "ready_to_create" in rep.data
      && (rep.data["ready_to_create"] == Bool(true) <==> Truthy(contractType) && |rep.warnings| == 0)
  }

  /** Without a contract type: list the active types to choose from. */
  function ListContractTypes(api: Api): (r: (seq<Call>, Report))
    ensures |r.0| == 1 && r.0[0].SearchRecords?
    ensures ReadinessConsistent(Str(""), r.1)
    ensures r.1.Completed? ==> "contract_type" !in r.1.data
  {
    var call := SearchRecords("/contract_type", Str("status=Active"), StrList(TypeListFields));
    match Ask(api, call)
    case Err(e) => ([call], Failure(PreflightOp, e, None))
    case Ok(types) =>
      ([call], Completed(PreflightOp, map["available_contract_types" := types, "ready_to_create" := Bool(false)],
                         [SelectContractType], []))
  }

  /** An unknown contract type: warn, and list the active types instead. */
  function UnknownContractType(contractType: Value, api: Api): (r: (seq<Call>, Report))
    ensures |r.0| == 1 && r.0[0].SearchRecords?
    ensures r.1.Completed? ==> r.1.warnings == [ContractTypeNotFound(contractType)]
    ensures r.1.Completed? ==> "contract_type" !in r.1.data && "ready_to_create" in r.1.data && r.1.data["ready_to_create"] == Bool(false)
  {
    var fallback := SearchRecords("/contract_type", Str("status=Active"), StrList(ActiveTypeFields));
    match Ask(api, fallback)
    case Err(e) => ([fallback], Failure(PreflightOp, e, None))
    case Ok(active) =>
      ([fallback], Completed(PreflightOp, map["ready_to_create" := Bool(false), "available_contract_types" := active],
                             [ChooseActiveType], [ContractTypeNotFound(contractType)]))
  }

  /** A known contract type: check the company against it. */
  function CheckKnownType(contractType: Value, companyName: Value, found: Value, env: Env): (r: (seq<Call>, Report))
    requires Truthy(contractType)
    ensures |r.0| <= 1 && forall i :: 0 <= i < |r.0| ==> r.0[i].SearchRecords?
    ensures ReadinessConsistent(contractType, r.1)
    ensures r.1.Completed? && !Truthy(companyName) ==> "contract_type" in r.1.data && r.1.data["ready_to_create"] == Bool(true)
  {
    match First(found)
    case Err(e) => ([], Failure(PreflightOp, e, None))
    case Ok(typeInfo) =>
      var (calls, check) := CheckCompany(companyName, typeInfo, env.api);
      match check
      case Err(e) => (calls, Failure(PreflightOp, e, None))
      case Ok(c) => (calls, PreflightReport(contractType, companyName, typeInfo, c, env.prose))
  }

  /** `handle_preflight_create_contract`: it only searches, never writes.
      It is ready to create exactly when a contract type was given and no
      warning was raised; without a company name, exactly when the contract
      type was found. */
  function Preflight(args: Object, env: Env): (r: (seq<Call>, Report))
    ensures r.1.operation == PreflightOp
    ensures |r.0| <= 2 && forall i :: 0 <= i < |r.0| ==> r.0[i].SearchRecords?
    ensures ReadinessConsistent(Lookup(args, "contract_type", Str("")), r.1)
    ensures r.1.Completed? && Truthy(Lookup(args, "contract_type", Str(""))) && !Truthy(Lookup(args, "company_name", Str(""))) ==>
      (r.1.data["ready_to_create"] == Bool(true) <==> "contract_type" in r.1.data)
  {
    var contractType := Lookup(args, "contract_type", Str(""));
    var companyName := Lookup(args, "company_name", Str(""));
    if !Truthy(contractType) then ListContractTypes(env.api)
    else
      var query := "contract_type='" + PyStr(contractType) + "' AND status=Active";
      var call := SearchRecords("/contract_type", Str(query), StrList(TypeLookupFields));
      match Ask(env.api, call)
      case Err(e) => ([call], Failure(PreflightOp, e, None))
      case Ok(found) =>
        var (calls, rep) := if !Truthy(found) then UnknownContractType(contractType, env.api)
                            else CheckKnownType(contractType, companyName, found, env);
        ([call] + calls, rep)
  }


  // ---------------------------------------------------------------------
  // create_contract_with_company
  // ---------------------------------------------------------------------

  const CreateWithCompanyOp := "create_contract_with_company"

  /** The contract's data as sent: the company link set to `":" + name`,
      linked fields prefixed, empty values stripped. */
  function ContractData(contractData: Object, companyName: Value): Object {
    TH.StripEmpty(EnsureLinkedPrefix(contractData["company_name" := Str(":" + PyStr(companyName))], ContractLinkedFields))
  }

  /** The contract always links to the company as `":" + name`. */
  lemma ContractDataLinksCompany(contractData: Object, companyName: Value)
    ensures "company_name" in ContractData(contractData, companyName)
    ensures ContractData(contractData, companyName)["company_name"] == Str(":" + PyStr(companyName))
  {
  }

  /** Step 2: create the contract. `data` already holds the company. */
  function CreateContract(calls: seq<Call>, data: Object, contractData: Value, companyName: Value, api: Api): (r: (seq<Call>, Report))
    requires "company_action" in data
    ensures r.1.operation == CreateWithCompanyOp
    ensures r.1.Failed? ==> r.1.partialData == Some(data)
    ensures |calls| <= |r.0| <= |calls| + 1 && r.0[..|calls|] == calls
    ensures |r.0| > |calls| ==> contractData.Obj? && r.0[|calls|] == CreateRecord("/contract", ContractData(contractData.fields, companyName))
    ensures r.1.Completed? ==> |r.0| > |calls| && "company_action" in r.1.data && r.1.data["company_action"] == data["company_action"]
  {
    if !contractData.Obj? then (calls, Failure(CreateWithCompanyOp, Builtin(TypeError), Some(data)))
    else
      var call := CreateRecord("/contract", ContractData(contractData.fields, companyName));
      match Ask(api, call)
      case Err(e) => (calls + [call], Failure(CreateWithCompanyOp, e, Some(data)))
      case Ok(contract) => (calls + [call], Completed(CreateWithCompanyOp, data["contract" := contract], [ContractCreated], []))
  }

  /** A company created here carries the name the workflow was given,
      unless that name is None or empty, which stripping drops; its other
      fields are the given ones that are not empty. */
  function CompanyCreateData(companyData: Object, companyName: Value): (r: Object)
    ensures "company_name" in r <==> companyName != Null && companyName != Str("")
    ensures "company_name" in r ==> r["company_name"] == companyName
    ensures forall k :: k in r && k != "company_name" ==> k in companyData && r[k] == companyData[k]
    ensures forall k :: k in companyData && k != "company_name" && companyData[k] != Null && companyData[k] != Str("") ==> k in r
  {
    TH.StripEmpty(companyData["company_name" := companyName])
  }

  /** The missing company is created, then the contract. */
  function CreateCompanyAndContract(search: Call, companyData: Object, contractData: Value, companyName: Value, api: Api): (r: (seq<Call>, Report))
    ensures r.1.operation == CreateWithCompanyOp
    ensures 2 <= |r.0| <= 3 && r.0[0] == search && r.0[1] == CreateRecord("/company", CompanyCreateData(companyData, companyName))
    ensures |r.0| == 3 ==> r.0[2].CreateRecord? && r.0[2].path == "/contract"
  {
    var create := CreateRecord("/company", CompanyCreateData(companyData, companyName));
    match Ask(api, create)
    case Err(e) => ([search, create], Failure(CreateWithCompanyOp, e, None))
    case Ok(company) =>
      CreateContract([search, create], map["company" := company, "company_action" := Str("created_new")], contractData, companyName, api)
  }

  /** `handle_create_contract_with_company`: find the company, else create
      it when allowed, else fail; then create the contract linked to it. */
  function CreateContractWithCompany(args: Object, env: Env): (r: (seq<Call>, Report))
    ensures r.1.operation == CreateWithCompanyOp
    ensures |r.0| >= 1 && r.0[0] == SearchRecords("/company", Str(CompanyQuery(PyStr(Lookup(args, "company_name", Str(""))))), StrList(CompanyFields))
  {
    var contractData := Lookup(args, "contract_data", Obj(map[]));
    var companyName := Lookup(args, "company_name", Str(""));
    var createIfMissing := Lookup(args, "create_company_if_missing", Bool(false));
    var companyData := Lookup(args, "company_data", Obj(map[]));
    var search := SearchRecords("/company", Str(CompanyQuery(PyStr(companyName))), StrList(CompanyFields));
    match Ask(env.api, search)
    case Err(e) => ([search], Failure(CreateWithCompanyOp, e, None))
    case Ok(found) =>
      if Truthy(found) then
        match First(found)
        case Err(e) => ([search], Failure(CreateWithCompanyOp, e, None))
        case Ok(company) =>
          CreateContract([search], map["company" := company, "company_action" := Str("found_existing")], contractData, companyName, env.api)
      else if Truthy(createIfMissing) then
        if !companyData.Obj? then ([search], Failure(CreateWithCompanyOp, Builtin(TypeError), None))
        else CreateCompanyAndContract(search, companyData.fields, contractData, companyName, env.api)
      else ([search], Failed(CreateWithCompanyOp, CompanyMissing(companyName), None))
  }

  /** The find/create/fail branching: a found company is reused and only
      the contract is created; a missing one is created first, under the
      argument's name, when the flag is set; otherwise the workflow fails
      after the one search, with no partial data. A completed run ends by
      creating the contract linked to `":" + name`, and says whether it
      found the company or created it. */
  lemma CreateContractBranches(args: Object, env: Env)
    ensures var companyName := Lookup(args, "company_name", Str(""));
      var companyData := Lookup(args, "company_data", Obj(map[]));
      var contractData := Lookup(args, "contract_data", Obj(map[]));
      var search := SearchRecords("/company", Str(CompanyQuery(PyStr(companyName))), StrList(CompanyFields));
      var found := Ask(env.api, search);
      var (calls, rep) := CreateContractWithCompany(args, env);
      && (found.Ok? && Truthy(found.value) ==>
            |calls| <= 2 && (|calls| == 2 ==> calls[1] == CreateRecord("/contract", ContractData(contractData.fields, companyName))))
      && (found.Ok? && !Truthy(found.value) && Truthy(Lookup(args, "create_company_if_missing", Bool(false))) && companyData.Obj? ==>
            |calls| >= 2 && calls[1] == CreateRecord("/company", CompanyCreateData(companyData.fields, companyName)))
      && (found.Ok? && !Truthy(found.value) && !Truthy(Lookup(args, "create_company_if_missing", Bool(false))) ==>
            calls == [search] && rep == Failed(CreateWithCompanyOp, CompanyMissing(companyName), None))
      && (rep.Completed? ==>
            && contractData.Obj?
            && calls[|calls| - 1] == CreateRecord("/contract", ContractData(contractData.fields, companyName))
            && "company_action" in rep.data
            && (rep.data["company_action"] == Str("found_existing") <==> Truthy(found.value)))
  {
    var companyName := Lookup(args, "company_name", Str(""));
    var search := SearchRecords("/company", Str(CompanyQuery(PyStr(companyName))), StrList(CompanyFields));
    var (calls, rep) := CreateContractWithCompany(args, env);
    if rep.Completed? && !Truthy(Ask(env.api, search).value) {
      assert rep.data["company_action"] == Str("created_new");
      assert Str("created_new") != Str("found_existing");
    }
  }

  // ---------------------------------------------------------------------
  // get_contract_summary
  // ---------------------------------------------------------------------

  const SummaryOp := "get_contract_summary"
  const SummaryContractFields: seq<string> :=
    ["id", "record_type", "contract_title1", "company_name",
     "contract_type", "contract_amount", "contract_start_date",
     "contract_end_date", "contract_term_in_months", "wfstate",
     "internal_contract_owner", "date_signed", "confidential",
     "auto_renewal_term_in_months", "evaluation_frequency",
     "contract_description", "cost_center"]
  const SummaryCompanyFields: seq<string> :=
    ["id", "company_name", "type_of_company", "status",
     "industry", "main_city", "country", "number_of_active_contracts"]

  /** The notes that flag an end date. */
  predicate IsDateNote(n: Note) {
    n.ExpiredDaysAgo? || n.ExpiresUrgently? || n.ExpiresSoon?
  }

  /** The date flag of a contract `days` days from its end date. */
  function DateIssue(days: Option<int>): (r: seq<Note>)
    ensures |r| <= 1
    ensures forall i :: 0 <= i < |r| ==> IsDateNote(r[i])
  {
    match days
    case None => []
    case Some(d) =>
      if d < 0 then [ExpiredDaysAgo(-d)]
      else if d <= 30 then [ExpiresUrgently(d)]
      else if d <= 90 then [ExpiresSoon(d)]
      else []
  }

  /** The date thresholds: past the end date, within 30 days, within 90 days. */
  lemma DateIssueThresholds(d: int)
    ensures DateIssue(Some(d)) == [ExpiredDaysAgo(-d)] <==> d < 0
    ensures DateIssue(Some(d)) == [ExpiresUrgently(d)] <==> 0 <= d <= 30
    ensures DateIssue(Some(d)) == [ExpiresSoon(d)] <==> 30 < d <= 90
    ensures DateIssue(Some(d)) == [] <==> d > 90
    ensures DateIssue(None) == []
  {
  }

  /** The statuses that are a health issue in themselves. */
  const BadStatuses: set<Value> := {Str("Draft"), Str("Cancelled"), Str("Expired")}

  /** The field checks of a contract record: a missing amount, owner and
      signature date (0 and "" count as missing), then the workflow state.
      Each flag is raised exactly when its condition holds. */
  function FieldIssues(contract: Object): (r: seq<Note>)
    ensures forall i :: 0 <= i < |r| ==> !IsDateNote(r[i])
    ensures MissingAmount in r <==> !Truthy(Lookup(contract, "contract_amount", Null))
    ensures NoOwner in r <==> !Truthy(Lookup(contract, "internal_contract_owner", Null))
    ensures NotSigned in r <==> !Truthy(Lookup(contract, "date_signed", Null))
    ensures StatusIs(Lookup(contract, "wfstate", Str(""))) in r <==> Lookup(contract, "wfstate", Str("")) in BadStatuses
  {
    var status := Lookup(contract, "wfstate", Str(""));
    (if !Truthy(Lookup(contract, "contract_amount", Null)) then [MissingAmount] else [])
    + (if !Truthy(Lookup(contract, "internal_contract_owner", Null)) then [NoOwner] else [])
    + (if !Truthy(Lookup(contract, "date_signed", Null)) then [NotSigned] else [])
    + (if status in BadStatuses then [StatusIs(status)] else [])
  }

  /** The health checks on a contract record: the date flag, then the field checks. */
  function HealthIssues(contract: Object, days: Option<int>): (r: seq<Note>)
    ensures forall i :: 0 <= i < |r| ==> (IsDateNote(r[i]) <==> i < |DateIssue(days)|)
    ensures forall n :: n in DateIssue(days) ==> n in r
    ensures forall n :: n in FieldIssues(contract) ==> n in r
  {
    DateIssue(days) + FieldIssues(contract)
  }

  /** Step 2 of the summary: the company record, or a warning when its
      search fails. */
  function CompanyDetails(name: string, api: Api): (r: (seq<Call>, Option<Value>, seq<Note>))
    ensures |r.0| == 1 && r.0[0] == SearchRecords("/company", Str(CompanyQuery(name)), StrList(SummaryCompanyFields))
    ensures r.1.None? || r.2 == []
  {
    var call := SearchRecords("/company", Str(CompanyQuery(name)), StrList(SummaryCompanyFields));
    match Ask(api, call)
    case Err(e) => ([call], None, [CompanyFetchFailed(Text(e))])
    case Ok(found) =>
      if !Truthy(found) then ([call], None, [])
      else
        match First(found)
        case Err(e) => ([call], None, [CompanyFetchFailed(Text(e))])
        case Ok(company) => ([call], Some(company), [])
  }

  /** The company link of a contract record. */
  function CompanyLink(contract: Object): Value {
    Lookup(contract, "company_name", Str(""))
  }

  /** Only a string company link can have its colon stripped. */
  predicate CompanyLinkUsable(contract: Object) {
    CompanyLink(contract).Str? || !Truthy(CompanyLink(contract))
  }

  /** The days remaining of a contract record, when it has an end date that parses. */
  function DaysOf(contract: Object, daysUntil: Value -> Option<int>): Option<int> {
    var endDate := Lookup(contract, "contract_end_date", Str(""));
    if Truthy(endDate) then daysUntil(endDate) else None
  }

  /** The attachment info, or the placeholder when the lookup fails. */
  function AttachmentsOrPlaceholder(reply: Result<Value, Error>): Value {
    match reply
    case Ok(v) => v
    case Err(_) => Obj(map["count" := Int(0), "note" := Str("No attachments or field not available")])
  }

  /** Step 4: the days remaining when the end date parsed, and the health
      issues when there are some. */
  function WithHealth(data: Object, days: Option<int>, issues: seq<Note>, prose: Prose): (r: Object)
    requires "days_remaining" !in data && "health_issues" !in data
    ensures forall k :: k in data ==> k in r && r[k] == data[k]
    ensures "days_remaining" in r <==> days.Some?
    ensures "health_issues" in r <==> |issues| > 0
    ensures "health_issues" in r ==> r["health_issues"] == Arr(Texts(issues, prose))
  {
    var data := if days.Some? then data["days_remaining" := Int(days.value)] else data;
    if |issues| > 0 then data["health_issues" := Arr(Texts(issues, prose))] else data
  }

  /** The summary's data before the health checks: the contract, the
      company when found, and the attachment info. */
  function BaseSummary(contract: Object, company: Option<Value>, attachments: Value): (r: Object)
    ensures "attachments" in r && "days_remaining" !in r && "health_issues" !in r
  {
    var data := map["contract" := Obj(contract), "attachments" := attachments];
    if company.Some? then data["company" := company.value] else data
  }

  /** Step 2 of the summary, when the contract names a company. */
  function CompanyStep(contract: Object, api: Api): (r: (seq<Call>, Option<Value>, seq<Note>))
    requires CompanyLinkUsable(contract)
    ensures |r.0| == (if Truthy(CompanyLink(contract)) then 1 else 0)
    ensures |r.2| <= 1 && forall i :: 0 <= i < |r.2| ==> r.2[i].CompanyFetchFailed?
  {
    var companyName := CompanyLink(contract);
    if Truthy(companyName) then CompanyDetails(Strings.LStripChar(companyName.s, ':'), api) else ([], None, [])
  }

  /** Steps 2 to 4 of the summary, on a contract read as a dict. The
      company search and the attachment lookup cannot make it fail: their
      failures become a warning and a placeholder. Its health issues are the
      contract's, listed only when there are some. */
  function SummarizeContract(contractId: Value, contract: Object, env: Env): (r: (seq<Call>, Report))
    requires CompanyLinkUsable(contract)
    ensures r.1.Completed? && r.1.operation == SummaryOp && r.1.nextSteps == [SummaryActions]
    ensures |r.0| == (if Truthy(CompanyLink(contract)) then 2 else 1)
    ensures r.0[|r.0| - 1] == GetAttachmentInfo("/contract", contractId, Str("attached_file"))
    ensures |r.1.warnings| <= 1 && forall i :: 0 <= i < |r.1.warnings| ==> r.1.warnings[i].CompanyFetchFailed?
    ensures "attachments" in r.1.data
    ensures "days_remaining" in r.1.data <==> DaysOf(contract, env.daysUntil).Some?
    ensures "health_issues" in r.1.data <==> |HealthIssues(contract, DaysOf(contract, env.daysUntil))| > 0
    ensures "health_issues" in r.1.data ==>
      r.1.data["health_issues"] == Arr(Texts(HealthIssues(contract, DaysOf(contract, env.daysUntil)), env.prose))
  {
    var (companyCalls, company, warnings) := CompanyStep(contract, env.api);
    var info := GetAttachmentInfo("/contract", contractId, Str("attached_file"));
    var data := BaseSummary(contract, company, AttachmentsOrPlaceholder(Ask(env.api, info)));
    var days := DaysOf(contract, env.daysUntil);
    (companyCalls + [info], Completed(SummaryOp, WithHealth(data, days, HealthIssues(contract, days), env.prose), [SummaryActions], warnings))
  }

  /** `handle_get_contract_summary`: it completes exactly when the contract
      is read as a dict whose company link is a string or empty; otherwise
      it fails, keeping what it read. */
  function ContractSummary(args: Object, env: Env): (r: (seq<Call>, Report))
    ensures r.1.operation == SummaryOp
    ensures var get := GetRecord("/contract", Lookup(args, "contract_id", Null), StrList(SummaryContractFields));
      && |r.0| >= 1 && r.0[0] == get
      && (r.1.Completed? <==> Ask(env.api, get).Ok? && env.api(get).value.Obj? && CompanyLinkUsable(env.api(get).value.fields))
      && (r.1.Failed? && Ask(env.api, get).Ok? ==> r.1.partialData == Some(map["contract" := env.api(get).value]))
  {
    var contractId := Lookup(args, "contract_id", Null);
    var get := GetRecord("/contract", contractId, StrList(SummaryContractFields));
    match Ask(env.api, get)
    case Err(e) => ([get], Failure(SummaryOp, e, None))
    case Ok(contract) =>
      if !contract.Obj? || !CompanyLinkUsable(contract.fields)
      then ([get], Failure(SummaryOp, Builtin(AttributeError), Some(map["contract" := contract])))
      else
        var (calls, rep) := SummarizeContract(contractId, contract.fields, env);
        ([get] + calls, rep)
  }

  // ---------------------------------------------------------------------
  // find_expiring_contracts
  // ---------------------------------------------------------------------

  const ExpiringOp := "find_expiring_contracts"
  const ExpiringFields: seq<string> :=
    ["id", "contract_title1", "company_name", "contract_type",
     "contract_end_date", "contract_amount", "wfstate",
     "auto_renewal_term_in_months", "internal_contract_owner"]
  /** The search cap the workflow asks for. */
  const ExpiringLimit := 200

  datatype Urgency = Expired | Urgent | Upcoming | Planning

  /** The urgency bucket of a contract ending `d` days from now. */
  function UrgencyOf(d: int): (u: Urgency)
    ensures u == Expired <==> d < 0
    ensures u == Urgent <==> 0 <= d <= 30
    ensures u == Upcoming <==> 30 < d <= 60
    ensures u == Planning <==> d > 60
  {
    if d < 0 then Expired else if d <= 30 then Urgent else if d <= 60 then Upcoming else Planning
  }

  function UrgencyLabel(u: Urgency): string {
    match u
    case Expired => "EXPIRED"
    case Urgent => "URGENT"
    case Upcoming => "UPCOMING"
    case Planning => "PLANNING"
  }

  /** A contract as it is listed: annotated with its days remaining and urgency. */
  function Annotated(contract: Object, d: int): Value {
    Obj(contract["days_remaining" := Int(d)]["urgency" := Str(UrgencyLabel(UrgencyOf(d)))])
  }

  datatype Buckets = Buckets(expired: seq<Value>, urgent: seq<Value>, upcoming: seq<Value>, planning: seq<Value>, warnings: seq<Note>)
  {
    function Get(u: Urgency): seq<Value> {
      match u
      case Expired => expired
      case Urgent => urgent
      case Upcoming => upcoming
      case Planning => planning
    }
    function Sorted(): nat {
      |expired| + |urgent| + |upcoming| + |planning|
    }
  }


  /** The categorisation loop: records without an end date are skipped, those
      whose end date does not parse are warned about, the rest are
      annotated and appended to their bucket, all in order. */
  function Categorize(records: seq<Value>, daysUntil: Value -> Option<int>): (r: Result<Buckets, Error>)
    ensures r.Ok? <==> forall i :: 0 <= i < |records| ==> records[i].Obj?
    ensures r.Err? ==> r.error == Builtin(AttributeError)
  {
    if |records| == 0 then Ok(Buckets([], [], [], [], []))
    else
      var rec := records[0];
      assert forall i :: 1 <= i < |records| ==> records[i] == records[1..][i - 1];
      if !rec.Obj? then Err(Builtin(AttributeError))
      else
        match Categorize(records[1..], daysUntil)
        case Err(e) => Err(e)
        case Ok(b) =>
          var endDate := Lookup(rec.fields, "contract_end_date", Str(""));
          if !Truthy(endDate) then Ok(b)
          else match daysUntil(endDate)
            case None => Ok(b.(warnings := [EndDateUnparsable(Lookup(rec.fields, "id", Null), endDate)] + b.warnings))
            case Some(d) =>
              var x := Annotated(rec.fields, d);
              Ok(match UrgencyOf(d)
                 case Expired => b.(expired := [x] + b.expired)
                 case Urgent => b.(urgent := [x] + b.urgent)
                 case Upcoming => b.(upcoming := [x] + b.upcoming)
                 case Planning => b.(planning := [x] + b.planning))
  }

  /** Reference definition: the records of one urgency, annotated, in order. */
  function InBucket(records: seq<Value>, daysUntil: Value -> Option<int>, u: Urgency): seq<Value> {
    if |records| == 0 then []
    else
      var rest := InBucket(records[1..], daysUntil, u);
      var rec := records[0];
      if rec.Obj? && DaysOf(rec.fields, daysUntil).Some? && UrgencyOf(DaysOf(rec.fields, daysUntil).value) == u
      then [Annotated(rec.fields, DaysOf(rec.fields, daysUntil).value)] + rest
      else rest
  }

  /** The number of records the loop skips for want of an end date. */
  function Undated(records: seq<Value>): nat {
    if |records| == 0 then 0
    else (if records[0].Obj? && !Truthy(Lookup(records[0].fields, "contract_end_date", Str(""))) then 1 else 0)
         + Undated(records[1..])
  }

  /** The buckets are exactly the reference filters, and they partition the
      dated records: every record is bucketed, warned about or skipped, once. */
  lemma {:induction false} CategorizePartitions(records: seq<Value>, daysUntil: Value -> Option<int>)
    requires forall i :: 0 <= i < |records| ==> records[i].Obj?
    ensures var b := Categorize(records, daysUntil).value;
      && b.expired == InBucket(records, daysUntil, Expired)
      && b.urgent == InBucket(records, daysUntil, Urgent)
      && b.upcoming == InBucket(records, daysUntil, Upcoming)
      && b.planning == InBucket(records, daysUntil, Planning)
      && b.Sorted() + |b.warnings| + Undated(records) == |records|
  {
    if |records| > 0 {
      assert forall i :: 0 <= i < |records[1..]| ==> records[1..][i] == records[i + 1];
      CategorizePartitions(records[1..], daysUntil);
    }
  }

  /** Every listed contract carries the urgency of its bucket. */
  lemma {:induction false} InBucketLabelled(records: seq<Value>, daysUntil: Value -> Option<int>, u: Urgency)
    ensures forall i :: 0 <= i < |InBucket(records, daysUntil, u)| ==>
      var x := InBucket(records, daysUntil, u)[i];
      x.Obj? && "urgency" in x.fields && x.fields["urgency"] == Str(UrgencyLabel(u))
      && "days_remaining" in x.fields && x.fields["days_remaining"].Int? && UrgencyOf(x.fields["days_remaining"].i) == u
  {
    if |records| > 0 {
      InBucketLabelled(records[1..], daysUntil, u);
    }
  }

  /** The expiry window: from today unless expired contracts are wanted,
      up to `days` from now, optionally restricted to one workflow state. */
  function ExpiryQuery(days: int, includeExpired: bool, statusFilter: Value, dateIn: int -> string): string {
    var window :=
      if includeExpired then "contract_end_date<='" + dateIn(days) + "'"
      else "contract_end_date>='" + dateIn(0) + "' AND contract_end_date<='" + dateIn(days) + "'";
    if Truthy(statusFilter) then window + " AND wfstate='" + PyStr(statusFilter) + "'" else window
  }

  /** The counts the report opens with. */
  function ExpirySummary(daysArg: Value, total: nat, b: Buckets): (r: Object)
    ensures "total_found" in r && r["total_found"] == Int(total)
    ensures "search_range_days" in r && r["search_range_days"] == daysArg
  {
    map["urgent_count" := Int(|b.urgent|), "upcoming_count" := Int(|b.upcoming|),
        "planning_count" := Int(|b.planning|), "expired_count" := Int(|b.expired|),
        "total_found" := Int(total), "search_range_days" := daysArg]
  }

  /** The next steps: the urgent and upcoming counts when there are some,
      and a hint to widen the window when the search found nothing. */
  function ExpiryNextSteps(daysArg: Value, results: Value, b: Buckets): (r: seq<Note>)
    ensures UrgentContracts(|b.urgent|) in r <==> |b.urgent| > 0
    ensures UpcomingContracts(|b.upcoming|) in r <==> |b.upcoming| > 0
    ensures NoneExpiring(daysArg) in r <==> !Truthy(results)
  {
    (if |b.urgent| > 0 then [UrgentContracts(|b.urgent|)] else [])
    + (if |b.upcoming| > 0 then [UpcomingContracts(|b.upcoming|)] else [])
    + (if !Truthy(results) then [NoneExpiring(daysArg)] else [])
  }

  /** The report: the summary, the three lists always and the expired list
      only when asked for. */
  function ExpiryReport(daysArg: Value, includeExpired: bool, results: Value, total: nat, b: Buckets): (r: Report)
    ensures r.Completed? && r.operation == ExpiringOp && r.warnings == b.warnings
    ensures r.nextSteps == ExpiryNextSteps(daysArg, results, b)
    ensures "summary" in r.data && r.data["summary"] == Obj(ExpirySummary(daysArg, total, b))
    ensures "urgent" in r.data && r.data["urgent"] == Arr(b.urgent)
    ensures "upcoming" in r.data && r.data["upcoming"] == Arr(b.upcoming)
    ensures "planning" in r.data && r.data["planning"] == Arr(b.planning)
    ensures "expired" in r.data <==> includeExpired
    ensures includeExpired ==> r.data["expired"] == Arr(b.expired)
  {
    var data := if includeExpired then map["expired" := Arr(b.expired)] else map[];
    var data := data["summary" := Obj(ExpirySummary(daysArg, total, b))]["urgent" := Arr(b.urgent)];
    var data := data["upcoming" := Arr(b.upcoming)]["planning" := Arr(b.planning)];
    Completed(ExpiringOp, data, ExpiryNextSteps(daysArg, results, b), b.warnings)
  }

  /** The search the workflow makes for a window of `days` days. */
  function ExpirySearch(args: Object, days: int, dateIn: int -> string): Call {
    var includeExpired := Truthy(Lookup(args, "include_expired", Bool(false)));
    var statusFilter := Lookup(args, "status_filter", Str(""));
    SearchRecordsLimit("/contract", Str(ExpiryQuery(days, includeExpired, statusFilter, dateIn)),
                       StrList(ExpiringFields), ExpiringLimit)
  }

  /** `handle_find_expiring_contracts`: a window that is not a whole number
      of days fails before any call; otherwise one search capped at 200. */
  function FindExpiring(args: Object, env: Env): (r: (seq<Call>, Report))
    ensures r.1.operation == ExpiringOp
    ensures AsInt(Lookup(args, "days_from_now", Int(90))).None? ==> r.0 == [] && r.1.Failed?
    ensures AsInt(Lookup(args, "days_from_now", Int(90))).Some? ==>
      r.0 == [ExpirySearch(args, AsInt(Lookup(args, "days_from_now", Int(90))).value, env.dateIn)]
  {
    var daysArg := Lookup(args, "days_from_now", Int(90));
    var includeExpired := Truthy(Lookup(args, "include_expired", Bool(false)));
    match AsInt(daysArg)
    case None => ([], Failure(ExpiringOp, Builtin(TypeError), None))
    case Some(days) =>
      var call := ExpirySearch(args, days, env.dateIn);
      match Ask(env.api, call)
      case Err(e) => ([call], Failure(ExpiringOp, e, None))
      case Ok(results) =>
        match TH.Records(results)
        case Err(e) => ([call], Failure(ExpiringOp, e, None))
        case Ok(records) =>
          match Categorize(records, env.daysUntil)
          case Err(e) => ([call], Failure(ExpiringOp, e, None))
          case Ok(b) => ([call], ExpiryReport(daysArg, includeExpired, results, |records|, b))
  }

  /** A completed search lists each urgency's records as the reference
      filter does, counts every record found, and lists expired contracts
      exactly when asked to. */
  lemma FindExpiringBuckets(args: Object, env: Env)
    ensures var (calls, rep) := FindExpiring(args, env);
      rep.Completed? ==>
        && |calls| == 1 && calls[0].SearchRecordsLimit? && calls[0].limit == ExpiringLimit
        && Ask(env.api, calls[0]).Ok? && TH.Records(env.api(calls[0]).value).Ok?
        && var records := TH.Records(env.api(calls[0]).value).value;
           && rep.data["urgent"] == Arr(InBucket(records, env.daysUntil, Urgent))
           && rep.data["upcoming"] == Arr(InBucket(records, env.daysUntil, Upcoming))
           && rep.data["planning"] == Arr(InBucket(records, env.daysUntil, Planning))
           && ("expired" in rep.data <==> Truthy(Lookup(args, "include_expired", Bool(false))))
           && ("expired" in rep.data ==> rep.data["expired"] == Arr(InBucket(records, env.daysUntil, Expired)))
           && rep.data["summary"].fields["total_found"] == Int(|records|)
  {
    var daysArg := Lookup(args, "days_from_now", Int(90));
    match AsInt(daysArg)
    case None =>
    case Some(days) =>
      var call := ExpirySearch(args, days, env.dateIn);
      match Ask(env.api, call)
      case Err(_) =>
      case Ok(results) =>
        match TH.Records(results)
        case Err(_) =>
        case Ok(records) =>
          match Categorize(records, env.daysUntil)
          case Err(_) =>
          case Ok(b) =>
            CategorizePartitions(records, env.daysUntil);
  }

  // ---------------------------------------------------------------------
  // onboard_company_with_contact
  // ---------------------------------------------------------------------

  const OnboardOp := "onboard_company_with_contact"

  /** The contact as sent: stripped, then linked to the company. */
  function ContactData(contact: Object, companyName: Value): Object {
    TH.StripEmpty(contact)["company_name" := Str(":" + PyStr(companyName))]
  }

  /** Step 2 of onboarding: create the contact when one was given. */
  function AddContact(calls: seq<Call>, data: Object, warnings: seq<Note>, contact: Value, companyName: Value, api: Api): (r: (seq<Call>, Report))
    requires "company_action" in data
    ensures r.1.operation == OnboardOp
    ensures r.1.Failed? ==> r.1.partialData == Some(data)
    ensures r.1.Completed? ==> r.1.warnings == warnings
    ensures |calls| <= |r.0| <= |calls| + 1 && r.0[..|calls|] == calls
    ensures Truthy(contact) && contact.Obj? ==>
      |r.0| == |calls| + 1 && r.0[|calls|] == CreateRecord("/contacts", ContactData(contact.fields, companyName))
  {
    if !Truthy(contact) then (calls, Completed(OnboardOp, data, [NoContactCreated, Onboarded], warnings))
    else if !contact.Obj? then (calls, Failure(OnboardOp, Builtin(AttributeError), Some(data)))
    else
      var call := CreateRecord("/contacts", ContactData(contact.fields, companyName));
      match Ask(api, call)
      case Err(e) => (calls + [call], Failure(OnboardOp, e, Some(data)))
      case Ok(created) =>
        (calls + [call], Completed(OnboardOp, data["contact" := created]["contact_action" := Str("created")], [Onboarded], warnings))
  }

  /** `handle_onboard_company_with_contact`. Reading the company name
      happens before the `try`, so company data that is not a dict escapes. */
  function Onboard(args: Object, env: Env): (r: (seq<Call>, Outcome))
    ensures r.1.Reports? ==> r.1.report.operation == OnboardOp
  {
    var companyData := Lookup(args, "company_data", Obj(map[]));
    var contact := Lookup(args, "contact_data", Null);
    var skipIfExists := Lookup(args, "skip_if_exists", Bool(false));
    if !companyData.Obj? then ([], Escapes(Builtin(AttributeError)))
    else
      var companyName := Lookup(companyData.fields, "company_name", Str(""));
      if !Truthy(companyName) then ([], Reports(Failed(OnboardOp, CompanyNameRequired, None)))
      else
        var search := SearchRecords("/company", Str(CompanyQuery(PyStr(companyName))), StrList(CompanyFields));
        var (calls, rep) := match Ask(env.api, search)
          case Err(e) => ([search], Failure(OnboardOp, e, None))
          case Ok(existing) =>
            if Truthy(existing) then
              match First(existing)
              case Err(e) => ([search], Failure(OnboardOp, e, None))
              case Ok(company) =>
                if Truthy(skipIfExists) then
                  var data := map["company" := company, "company_action" := Str("already_exists")];
                  match GetIn(company, "id", Null)
                  case Err(e) => ([search], Failure(OnboardOp, e, Some(data)))
                  case Ok(id) => AddContact([search], data, [CompanyExistsSkipped(companyName, id)], contact, companyName, env.api)
                else
                  match GetIn(company, "id", Null)
                  case Err(e) => ([search], Failure(OnboardOp, e, None))
                  case Ok(id) =>
                    ([search], Failed(OnboardOp, CompanyExists(companyName, id), Some(map["existing_company" := company])))
            else
              var create := CreateRecord("/company", TH.StripEmpty(companyData.fields));
              match Ask(env.api, create)
              case Err(e) => ([search, create], Failure(OnboardOp, e, None))
              case Ok(created) =>
                AddContact([search, create], map["company" := created, "company_action" := Str("created")], [], contact, companyName, env.api);
        (calls, Reports(rep))
  }

  /** Onboarding: a missing company name fails before any call; an existing
      company is reused with a warning when skipping is allowed and is
      otherwise an error carrying it as partial data; a new company is
      created from the stripped data. A created contact is linked to the
      company as `":" + name`. */
  lemma OnboardBranches(args: Object, env: Env)
    requires Lookup(args, "company_data", Obj(map[])).Obj?
    ensures var companyData := Lookup(args, "company_data", Obj(map[])).fields;
      var companyName := Lookup(companyData, "company_name", Str(""));
      var search := SearchRecords("/company", Str(CompanyQuery(PyStr(companyName))), StrList(CompanyFields));
      var (calls, out) := Onboard(args, env);
      && out.Reports?
      && (!Truthy(companyName) <==> calls == [])
      && (!Truthy(companyName) ==> out.report == Failed(OnboardOp, CompanyNameRequired, None))
      && (Truthy(companyName) && Ask(env.api, search).Ok? && env.api(search).value.Arr? && |env.api(search).value.items| > 0
          && env.api(search).value.items[0].Obj? ==>
            var company := env.api(search).value.items[0];
            var id := Lookup(company.fields, "id", Null);
            if Truthy(Lookup(args, "skip_if_exists", Bool(false))) then
              out.report.Completed? ==>
                && out.report.data["company_action"] == Str("already_exists")
                && out.report.warnings == [CompanyExistsSkipped(companyName, id)]
            else
              && calls == [search]
              && out.report == Failed(OnboardOp, CompanyExists(companyName, id), Some(map["existing_company" := company])))
      && (Truthy(companyName) && Ask(env.api, search).Ok? && !Truthy(env.api(search).value) ==>
            |calls| >= 2 && calls[1] == CreateRecord("/company", TH.StripEmpty(companyData)))
  {
  }

  /** The contact's company link survives stripping: an empty
      `company_name` in the contact data is replaced, not dropped. */
  lemma ContactLinkedToCompany(contact: Object, companyName: Value)
    ensures "company_name" in ContactData(contact, companyName)
    ensures ContactData(contact, companyName)["company_name"] == Str(":" + PyStr(companyName))
    ensures forall k :: k in ContactData(contact, companyName) && k != "company_name" ==>
      k in contact && contact[k] != Null && contact[k] != Str("") && ContactData(contact, companyName)[k] == contact[k]
  {
  }

  // ---------------------------------------------------------------------
  // attach_file_to_contract
  // ---------------------------------------------------------------------

  const AttachOp := "attach_file_to_contract"

  /** The paths of a sandboxed assistant, which the local server cannot read. */
  const SandboxPrefixes: seq<string> := ["/mnt/", "/home/claude", "/tmp/sandbox", "/sandbox/"]

  predicate IsSandboxPath(path: string) {
    exists i :: 0 <= i < |SandboxPrefixes| && Strings.IsPrefix(SandboxPrefixes[i], path)
  }

  /** Only `/tmp/sandbox` is refused under `/tmp`: any other temporary path
      goes on to the filesystem check. */
  lemma TmpPathsAreNotSandbox()
    ensures !IsSandboxPath("/tmp/report.pdf")
    ensures IsSandboxPath("/tmp/sandbox/report.pdf")
    ensures IsSandboxPath("/mnt/data/report.pdf")
  {
    assert Strings.IsPrefix(SandboxPrefixes[2], "/tmp/sandbox/report.pdf");
    assert Strings.IsPrefix(SandboxPrefixes[0], "/mnt/data/report.pdf");
    forall i | 0 <= i < |SandboxPrefixes| ensures !Strings.IsPrefix(SandboxPrefixes[i], "/tmp/report.pdf") {
      var p := SandboxPrefixes[i];
      assert p[1] != "/tmp/report.pdf"[1] || p[5] != "/tmp/report.pdf"[5];
    }
  }

  /** `os.path.basename`: what follows the last slash. */
  function BaseName(path: string): (r: string)
    ensures |r| <= |path| && r == path[|path| - |r|..]
    ensures forall i :: 0 <= i < |r| ==> r[i] != '/'
    ensures |r| < |path| ==> path[|path| - |r| - 1] == '/'
  {
    if |path| == 0 || path[|path| - 1] == '/' then ""
    else BaseName(path[..|path| - 1]) + [path[|path| - 1]]
  }

  /** The attachment record that links the file to the contract by title. */
  function AttachmentRecord(title: Value, contractTitle: Value): Object {
    map["title" := title, "status" := Str("Active"), "expiration_date" := Str("2099-12-31"),
        "contract_title" := Str(":" + PyStr(contractTitle))]
  }

  /** The new attachment's id in a create response: an int or string
      `result` converted with `int()`, or the `id` of a dict `result`;
      anything else gives no id. */
  function AttachmentId(created: Value): (r: Result<Value, Error>)
    ensures !created.Obj? ==> r == Err(Builtin(AttributeError))
    ensures created.Obj? ==>
      var res := Lookup(created.fields, "result", Null);
      && (res.Int? ==> r == Ok(res))
      && (res.Bool? ==> r == Ok(Int(if res.b then 1 else 0)))
      && (res.Str? ==> (r.Ok? <==> Strings.ParseInt(res.s).Some?))
      && (res.Str? && r.Ok? ==> r.value == Int(Strings.ParseInt(res.s).value))
      && (res.Obj? ==> r == Ok(Lookup(res.fields, "id", Null)))
      && (res.Null? || res.Arr? ==> r == Ok(Null))
  {
    if !created.Obj? then Err(Builtin(AttributeError))
    else
      match Lookup(created.fields, "result", Null)
      case Int(i) => Ok(Int(i))
      case Bool(b) => Ok(Int(if b then 1 else 0))
      case Str(s) =>
        (match Strings.ParseInt(s) case Some(i) => Ok(Int(i)) case None => Err(Builtin(ValueError)))
      case Obj(m) => Ok(Lookup(m, "id", Null))
      case _ => Ok(Null)
  }

  /** The round trip the extraction relies on: an id the server returns as a
      decimal string comes back as that id. */
  lemma AttachmentIdFromString(id: int)
    ensures AttachmentId(Obj(map["result" := Str(Strings.IntToString(id))])) == Ok(Int(id))
  {
    Strings.ParseIntToString(id);
  }

  /** Steps 1 to 4: read the contract's title, create the attachment record,
      upload the file to it and read back its file info. */
  function AttachSteps(contractId: Value, fileName: Value, title: Value, bytes: Bytes, api: Api): (r: (seq<Call>, Report))
    ensures r.1.operation == AttachOp
  {
    var get := GetRecord("/contract", contractId, StrList(["id", "contract_title1"]));
    match Ask(api, get)
    case Err(e) => ([get], Failure(AttachOp, e, None))
    case Ok(contract) =>
      match GetIn(contract, "contract_title1", Str(""))
      case Err(e) => ([get], Failure(AttachOp, e, None))
      case Ok(contractTitle) =>
        var data := map["contract" := contract];
        if !Truthy(contractTitle) then ([get], Failed(AttachOp, UntitledContract(contractId), Some(data)))
        else
          var create := CreateRecord("/attachment", AttachmentRecord(title, contractTitle));
          match Ask(api, create)
          case Err(e) => ([get, create], Failure(AttachOp, e, Some(data)))
          case Ok(created) =>
            var data := data["attachment_record" := created];
            match AttachmentId(created)
            case Err(e) => ([get, create], Failure(AttachOp, e, Some(data)))
            case Ok(id) =>
              if !Truthy(id) then ([get, create], Failed(AttachOp, NoAttachmentId(created), Some(data)))
              else
                var data := data["attachment_id" := id];
                var upload := AttachFile("/attachment", id, Str("attached_file"), fileName, bytes);
                match Ask(api, upload)
                case Err(e) => ([get, create, upload], Failure(AttachOp, e, Some(data)))
                case Ok(uploaded) =>
                  var data := data["upload_result" := uploaded];
                  var info := GetAttachmentInfo("/attachment", id, Str("attached_file"));
                  match Ask(api, info)
                  case Err(e) => ([get, create, upload, info], Failure(AttachOp, e, Some(data)))
                  case Ok(fileInfo) =>
                    ([get, create, upload, info],
                     Completed(AttachOp, data["file_info" := fileInfo], [FileAttached(fileName, contractId, id)], []))
  }

  /** `handle_attach_file_to_contract`. The path checks and the file read
      happen before the `try`; a path that is not a string escapes. */
  function AttachToContract(args: Object, env: Env): (r: (seq<Call>, Outcome))
    ensures r.1.Reports? ==> r.1.report.operation == AttachOp
  {
    var contractId := Lookup(args, "contract_id", Null);
    var path := Lookup(args, "file_path", Str(""));
    var fileName := Lookup(args, "file_name", Str(""));
    var title := Lookup(args, "attachment_title", Str(""));
    if !Truthy(path) then ([], Reports(Failed(AttachOp, FilePathRequired, None)))
    else if !path.Str? then ([], Escapes(Builtin(AttributeError)))
    else if IsSandboxPath(path.s) then ([], Reports(Failed(AttachOp, SandboxPath(path.s), None)))
    else
      var full := env.expandUser(path.s);
      match env.readFile(full)
      case NotAFile => ([], Reports(Failed(AttachOp, FileNotFound(full), None)))
      case Unreadable(err) => ([], Reports(Failed(AttachOp, FileUnreadable(full, err), None)))
      case Contents(bytes) =>
        var name := if Truthy(fileName) then fileName else Str(BaseName(full));
        var title := if Truthy(title) then title else name;
        if |bytes| == 0 then ([], Reports(Failed(AttachOp, EmptyFile, None)))
        else
          var (calls, rep) := AttachSteps(contractId, name, title, bytes, env.api);
          (calls, Reports(rep))
  }

  /** The pre-checks: an empty path, a sandbox path, a missing or unreadable
      file and an empty file all fail before any call. */
  lemma AttachPrechecks(args: Object, env: Env)
    ensures var path := Lookup(args, "file_path", Str(""));
      var (calls, out) := AttachToContract(args, env);
      && (!Truthy(path) ==> calls == [] && out == Reports(Failed(AttachOp, FilePathRequired, None)))
      && (path.Str? && IsSandboxPath(path.s) ==> calls == [] && out == Reports(Failed(AttachOp, SandboxPath(path.s), None)))
      && (path.Str? && |path.s| > 0 && !IsSandboxPath(path.s) && !env.readFile(env.expandUser(path.s)).Contents? ==> calls == [])
      && (path.Str? && env.readFile(env.expandUser(path.s)) == Contents([]) ==> calls == [])
  {
  }

  /** With a readable non-empty file, the record created is exactly the
      linking record; an id that cannot be determined fails with the
      progress so far and uploads nothing. */
  lemma AttachCreatesLinkRecord(contractId: Value, fileName: Value, title: Value, bytes: Bytes, api: Api)
    ensures var (calls, rep) := AttachSteps(contractId, fileName, title, bytes, api);
      && (forall i :: 0 <= i < |calls| && calls[i].CreateRecord? ==>
            i == 1 && calls[i].path == "/attachment"
            && calls[i].data == AttachmentRecord(title, Lookup(api(calls[0]).value.fields, "contract_title1", Str(""))))
      && (|calls| >= 2 && api(calls[1]).Returned? && AttachmentId(api(calls[1]).value).Ok?
          && !Truthy(AttachmentId(api(calls[1]).value).value) ==>
            |calls| == 2 && rep.Failed? && rep.error == NoAttachmentId(api(calls[1]).value) && rep.partialData.Some?)
      && (rep.Completed? ==> |calls| == 4 && calls[2].AttachFile? && calls[2].content == bytes && calls[2].fileName == fileName)
  {
  }

  // ---------------------------------------------------------------------
  // Dispatch
  // ---------------------------------------------------------------------

  /** The keys of `WORKFLOW_HANDLERS`. */
  datatype Workflow =
    | PreflightCreateContract
    | CreateContractWithCompanyFlow
    | GetContractSummary
    | FindExpiringContracts
    | OnboardCompanyWithContact
    | AttachFileToContract

  function HandlerName(w: Workflow): string {
    match w
    case PreflightCreateContract => PreflightOp
    case CreateContractWithCompanyFlow => CreateWithCompanyOp
    case GetContractSummary => SummaryOp
    case FindExpiringContracts => ExpiringOp
    case OnboardCompanyWithContact => OnboardOp
    case AttachFileToContract => AttachOp
  }

  /** `WORKFLOW_HANDLERS.get(name)` */
  function ParseHandler(name: string): (r: Option<Workflow>)
    ensures r.Some? ==> HandlerName(r.value) == name
  {
    if name == PreflightOp then Some(PreflightCreateContract)
    else if name == CreateWithCompanyOp then Some(CreateContractWithCompanyFlow)
    else if name == SummaryOp then Some(GetContractSummary)
    else if name == ExpiringOp then Some(FindExpiringContracts)
    else if name == OnboardOp then Some(OnboardCompanyWithContact)
    else if name == AttachOp then Some(AttachFileToContract)
    else None
  }

  /** Every handler is registered under its own name. */
  lemma ParseHandlerName(w: Workflow)
    ensures ParseHandler(HandlerName(w)) == Some(w)
  {
  }

  function RunWorkflow(w: Workflow, args: Object, env: Env): (seq<Call>, Outcome) {
    match w
    case PreflightCreateContract => var (c, r) := Preflight(args, env); (c, Reports(r))
    case CreateContractWithCompanyFlow => var (c, r) := CreateContractWithCompany(args, env); (c, Reports(r))
    case GetContractSummary => var (c, r) := ContractSummary(args, env); (c, Reports(r))
    case FindExpiringContracts => var (c, r) := FindExpiring(args, env); (c, Reports(r))
    case OnboardCompanyWithContact => Onboard(args, env)
    case AttachFileToContract => AttachToContract(args, env)
  }

  /** Every workflow reports under its own handler name. */
  lemma WorkflowsReportTheirName(w: Workflow, args: Object, env: Env)
    ensures var (_, out) := RunWorkflow(w, args, env);
      out.Reports? ==> out.report.operation == HandlerName(w)
    ensures w !in {OnboardCompanyWithContact, AttachFileToContract} ==> RunWorkflow(w, args, env).1.Reports?
  {
  }

  /** `dispatch_workflow_call`: an unmapped (or empty) handler name and an
      unregistered handler are ValueErrors raised before any call. */
  function DispatchWorkflowCall(dispatch: map<string, string>, name: string, args: Object, env: Env): (r: (seq<Call>, Outcome))
    ensures (name !in dispatch || dispatch[name] == "") ==>
      r == ([], Escapes(Errors.Value("Unknown workflow tool: " + name)))
    ensures name in dispatch && dispatch[name] != "" && ParseHandler(dispatch[name]).None? ==>
      r == ([], Escapes(Errors.Value("Unknown workflow handler: " + dispatch[name])))
    ensures name in dispatch && ParseHandler(dispatch[name]).Some? ==>
      r == RunWorkflow(ParseHandler(dispatch[name]).value, args, env)
  {
    if name !in dispatch || dispatch[name] == "" then ([], Escapes(Errors.Value("Unknown workflow tool: " + name)))
    else
      match ParseHandler(dispatch[name])
      case None => ([], Escapes(Errors.Value("Unknown workflow handler: " + dispatch[name])))
      case Some(w) => RunWorkflow(w, args, env)
  }
}
