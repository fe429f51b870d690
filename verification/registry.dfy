/**
 * The static entity registry (src/entity_registry.py): one immutable record
 * per remote resource type, kept in declaration order. Tool generation,
 * dispatch and the handlers are generic over any well-formed registry; the
 * constant `Registry` is the one the adapter ships.
 */
module EntityRegistry {
  import opened Wrappers
  import opened Errors
  import Strings

  datatype EntityConfig = EntityConfig(
    key: string,
    keyPlural: string,
    apiPath: string,
    displayName: string,
    displayNamePlural: string,
    /** `key_fields` in declaration order: field name and JSON-schema type.
        The descriptions live in `FieldDescription`. */
    keyFields: seq<(string, string)>,
    defaultSearchFields: seq<string>,
    requiredFields: seq<string>,
    textSearchFields: seq<string>,
    supportsAttach: bool,
    supportsActionButton: bool,
    supportsEvaluateFormat: bool)
  {
    /** The keys of `key_fields`, in order. */
    function FieldNames(): seq<string> {
      Names(keyFields)
    }
  }

  /** The first components of a sequence of named entries, in order. */
  function Names<T>(entries: seq<(string, T)>): (r: seq<string>)
    ensures |r| == |entries|
    ensures forall i :: 0 <= i < |r| ==> r[i] == entries[i].0
  {
    if |entries| == 0 then [] else [entries[0].0] + Names(entries[1..])
  }

  predicate Distinct<T(==)>(xs: seq<T>) {
    forall i, j :: 0 <= i < j < |xs| ==> xs[i] != xs[j]
  }

  /** The dataclass constructor with its defaults: every capability flag is true. */
  function WithDefaultFlags(
    key: string, keyPlural: string, apiPath: string,
    displayName: string, displayNamePlural: string,
    textSearchFields: seq<string>, keyFields: seq<(string, string)>,
    defaultSearchFields: seq<string>, requiredFields: seq<string>): (e: EntityConfig)
    ensures e.supportsAttach && e.supportsActionButton && e.supportsEvaluateFormat
    ensures e.key == key && e.keyPlural == keyPlural && e.apiPath == apiPath
    ensures e.displayName == displayName && e.displayNamePlural == displayNamePlural
    ensures e.keyFields == keyFields && e.textSearchFields == textSearchFields
    ensures e.defaultSearchFields == defaultSearchFields && e.requiredFields == requiredFields
  {
    EntityConfig(key, keyPlural, apiPath, displayName, displayNamePlural, keyFields,
                 defaultSearchFields, requiredFields, textSearchFields, true, true, true)
  }

  /** A registry: dict key and record, in declaration order. */
  type Table = seq<(string, EntityConfig)>

  /** What tool generation and the handlers rely on from one record: required
      and text-search fields are declared key fields, and searches return `id`. */
  predicate EntityWellFormed(e: EntityConfig) {
    && (forall i :: 0 <= i < |e.requiredFields| ==> Declares(e, e.requiredFields[i]))
    && (forall i :: 0 <= i < |e.textSearchFields| ==> Declares(e, e.textSearchFields[i]))
    && "id" in e.defaultSearchFields
  }

  /** `field in entity.key_fields`. */
  predicate Declares(e: EntityConfig, field: string) {
    exists j :: 0 <= j < |e.keyFields| && e.keyFields[j].0 == field
  }

  /** The entity keys, as recorded in the records themselves. */
  function Keys(reg: Table): (r: seq<string>)
    ensures |r| == |reg|
    ensures forall i :: 0 <= i < |r| ==> r[i] == reg[i].1.key
  {
    if |reg| == 0 then [] else [reg[0].1.key] + Keys(reg[1..])
  }

  function Plurals(reg: Table): (r: seq<string>)
    ensures |r| == |reg|
    ensures forall i :: 0 <= i < |r| ==> r[i] == reg[i].1.keyPlural
  {
    if |reg| == 0 then [] else [reg[0].1.keyPlural] + Plurals(reg[1..])
  }

  /** A registry every generated tool name is unique for: each record is filed
      under its own key, keys and plurals are distinct, and no key could be
      mistaken for the tail of a `get_attachment_info` tool name. */
  predicate WellFormed(reg: Table) {
    && (forall i :: 0 <= i < |reg| ==> reg[i].0 == reg[i].1.key)
    && (forall i :: 0 <= i < |reg| ==> EntityWellFormed(reg[i].1))
    && (forall i, j :: 0 <= i < j < |reg| ==> reg[i].1.key != reg[j].1.key)
    && (forall i, j :: 0 <= i < j < |reg| ==> reg[i].1.keyPlural != reg[j].1.keyPlural)
    && (forall i :: 0 <= i < |reg| ==> !Strings.IsPrefix("attachment_info_", reg[i].1.key))
  }

  /** First record filed under `key`. */
  function Find(reg: Table, key: string): (r: Option<EntityConfig>)
    ensures r.None? <==> key !in Names(reg)
    ensures r.Some? ==> exists i :: 0 <= i < |reg| && reg[i] == (key, r.value)
  {
    if |reg| == 0 then None
    else if reg[0].0 == key then
      assert reg[0] == (key, reg[0].1);
      Some(reg[0].1)
    else
      var r := Find(reg[1..], key);
      assert Names(reg) == [reg[0].0] + Names(reg[1..]);
      if r.Some? then
        var i :| 0 <= i < |reg[1..]| && reg[1..][i] == (key, r.value);
        assert reg[i + 1] == (key, r.value);
        r
      else r
  }

  function UnknownEntityMessage(reg: Table, key: string): string {
    "Unknown entity: '" + key + "'. Valid entities: " + Strings.Join(Names(reg), ", ")
  }

  /** `get_entity(key)` against a registry: the record filed under `key`, or a
      ValueError whose message names every valid key. */
  function Lookup(reg: Table, key: string): (r: Result<EntityConfig, Error>)
    ensures r.Ok? <==> key in Names(reg)
    ensures r.Ok? ==> exists i :: 0 <= i < |reg| && reg[i] == (key, r.value)
    ensures r.Err? ==> r.error.Value? && forall k :: k in Names(reg) ==> Strings.IsSubstring(k, r.error.message)
  {
    match Find(reg, key)
    case Some(e) => Ok(e)
    case None =>
      UnknownEntityMessageListsKeys(reg, key);
      Err(Errors.Value(UnknownEntityMessage(reg, key)))
  }

  lemma UnknownEntityMessageListsKeys(reg: Table, key: string)
    ensures forall k :: k in Names(reg) ==> Strings.IsSubstring(k, UnknownEntityMessage(reg, key))
  {
    var keys := Names(reg);
    var prefix := "Unknown entity: '" + key + "'. Valid entities: ";
    forall k | k in keys
      ensures Strings.IsSubstring(k, UnknownEntityMessage(reg, key))
    {
      var i :| 0 <= i < |keys| && keys[i] == k;
      Strings.JoinContainsPart(keys, ", ", i);
      Strings.SubstringOfRight(k, prefix, Strings.Join(keys, ", "));
    }
  }

  /** In a well-formed registry the record found under a key carries that key. */
  lemma LookupKey(reg: Table, key: string)
    requires WellFormed(reg)
    ensures Lookup(reg, key).Ok? ==> Lookup(reg, key).value.key == key
  {
  }

  /** In a well-formed registry looking up a record's own key finds that record. */
  lemma LookupRecord(reg: Table, k: int)
    requires WellFormed(reg) && 0 <= k < |reg|
    ensures Lookup(reg, reg[k].1.key) == Ok(reg[k].1)
  {
    var key := reg[k].1.key;
    assert Names(reg)[k] == key;
    var r := Lookup(reg, key);
    var i :| 0 <= i < |reg| && reg[i] == (key, r.value);
    if i < k {
      assert reg[i].1.key != reg[k].1.key;
    } else if k < i {
      assert reg[k].1.key != reg[i].1.key;
    }
  }

  // ---------------------------------------------------------------------
  // The shipped registry
  // ---------------------------------------------------------------------

  /** ENTITY_REGISTRY (src/entity_registry.py:46-255). */
  const Registry: Table := [
    ("contract", Contract),
    ("company", Company),
    ("attachment", Attachment),
    ("contact", Contact),
    ("employee", Employee),
    ("customer", Customer),
    ("contract_type", ContractType)
  ]

  /** `list_entities()`: the registry's keys in declaration order. */
  function ListEntities(): seq<string> {
    Names(Registry)
  }

  /** `get_entity(key)` on the shipped registry. */
  function GetEntity(key: string): (r: Result<EntityConfig, Error>)
    ensures r.Ok? <==> key in ListEntities()
    ensures r.Ok? ==> r.value.key == key && (key, r.value) in Registry
    ensures r.Err? ==> r.error.Value? && forall k :: k in ListEntities() ==> Strings.IsSubstring(k, r.error.message)
  {
    RegistryWellFormed();
    LookupKey(Registry, key);
    Lookup(Registry, key)
  }

  /** `contract` (src/entity_registry.py:47-83). */
  const Contract: EntityConfig := WithDefaultFlags(
    key := "contract",
    keyPlural := "contracts",
    apiPath := "/contract",
    displayName := "Contract",
    displayNamePlural := "Contracts",
    textSearchFields := ["contract_title1", "company_name"],
    keyFields := [
      ("record_type", "string"),
      ("contract_title1", "string"),
      ("company_name", "string"),
      ("contract_amount", "number"),
      ("contract_start_date", "string"),
      ("contract_end_date", "string"),
      ("contract_term_in_months", "integer"),
      ("internal_contract_owner", "string"),
      ("contract_type", "string"),
      ("contract_description", "string"),
      ("contract_comments", "string"),
      ("wfstate", "string"),
      ("confidential", "string"),
      ("evaluation_frequency", "integer"),
      ("auto_renewal_term_in_months", "integer"),
      ("date_signed", "string"),
      ("signer1_email", "string"),
      ("cost_center", "string"),
      ("annual_increase", "number")
    ],
    defaultSearchFields := ["id", "record_type", "contract_title1", "company_name", "contract_amount", "contract_end_date", "internal_contract_owner", "date_signed", "wfstate", "contract_type"],
    requiredFields := ["record_type", "auto_renewal_term_in_months", "confidential", "evaluation_frequency"]
  )

  /** `company` (src/entity_registry.py:84-109). */
  const Company: EntityConfig := WithDefaultFlags(
    key := "company",
    keyPlural := "companies",
    apiPath := "/company",
    displayName := "Company",
    displayNamePlural := "Companies",
    textSearchFields := ["company_name"],
    keyFields := [
      ("company_name", "string"),
      ("type_of_company", "string"),
      ("status", "string"),
      ("industry", "string"),
      ("parent_company_id", "string"),
      ("main_city", "string"),
      ("country", "string"),
      ("fax", "string"),
      ("account_rep", "string"),
      ("main_location_name", "string"),
      ("ongoing_notes", "string")
    ],
    defaultSearchFields := ["id", "company_name", "type_of_company", "status", "industry", "main_city", "country", "number_of_active_contracts"],
    requiredFields := ["company_name", "type_of_company", "status"]
  )

  /** `attachment` (src/entity_registry.py:110-134). */
  const Attachment: EntityConfig := WithDefaultFlags(
    key := "attachment",
    keyPlural := "attachments",
    apiPath := "/attachment",
    displayName := "Attachment",
    displayNamePlural := "Attachments",
    textSearchFields := ["title"],
    keyFields := [
      ("title", "string"),
      ("status", "string"),
      ("attached_file", "string"),
      ("expiration_date", "string"),
      ("attachment_type", "string"),
      ("contract_id", "string"),
      ("document_source", "string"),
      ("contract_type", "string"),
      ("sorting_order", "number"),
      ("include_in_approval_packet", "string")
    ],
    defaultSearchFields := ["id", "title", "status", "attachment_type", "contract_id", "expiration_date", "document_source", "sorting_order"],
    requiredFields := ["attached_file", "title", "status", "expiration_date"]
  )

  /** `contact` (src/entity_registry.py:135-161). */
  const Contact: EntityConfig := WithDefaultFlags(
    key := "contact",
    keyPlural := "contacts",
    apiPath := "/contacts",
    displayName := "Contact",
    displayNamePlural := "Contacts",
    textSearchFields := ["full_name", "company_name"],
    keyFields := [
      ("first_name", "string"),
      ("last_name", "string"),
      ("full_name", "string"),
      ("email", "string"),
      ("company_name", "array"),
      ("company_id", "string"),
      ("status", "string"),
      ("type_of_contact", "string"),
      ("direct_phone", "string"),
      ("cell_phone", "string"),
      ("title", "string"),
      ("sso_auth_method", "string")
    ],
    defaultSearchFields := ["id", "full_name", "email", "company_name", "status", "type_of_contact", "direct_phone", "title"],
    requiredFields := ["sso_auth_method"]
  )

  /** `employee` (src/entity_registry.py:162-189). */
  const Employee: EntityConfig := WithDefaultFlags(
    key := "employee",
    keyPlural := "employees",
    apiPath := "/contacts.employees",
    displayName := "Employee",
    displayNamePlural := "Employees",
    textSearchFields := ["full_name", "company_name"],
    keyFields := [
      ("_login", "string"),
      ("password", "string"),
      ("first_name", "string"),
      ("last_name", "string"),
      ("full_name", "string"),
      ("email", "string"),
      ("company_name", "array"),
      ("status", "string"),
      ("type_of_contact", "string"),
      ("department0", "string"),
      ("title", "string"),
      ("sso_auth_method", "string"),
      ("preferred_interface", "string")
    ],
    defaultSearchFields := ["id", "full_name", "email", "company_name", "status", "type_of_contact", "department0", "title", "_login"],
    requiredFields := ["_login", "password", "sso_auth_method"]
  )

  /** `customer` (src/entity_registry.py:190-215). */
  const Customer: EntityConfig := WithDefaultFlags(
    key := "customer",
    keyPlural := "customers",
    apiPath := "/contacts.customer",
    displayName := "Customer Contact",
    displayNamePlural := "Customer Contacts",
    textSearchFields := ["full_name", "company_name"],
    keyFields := [
      ("_login", "string"),
      ("password", "string"),
      ("first_name", "string"),
      ("last_name", "string"),
      ("full_name", "string"),
      ("email", "string"),
      ("company_name", "array"),
      ("status", "string"),
      ("type_of_contact", "string"),
      ("title", "string"),
      ("sso_auth_method", "string")
    ],
    defaultSearchFields := ["id", "full_name", "email", "company_name", "status", "type_of_contact", "title", "_login"],
    requiredFields := ["_login", "password", "sso_auth_method"]
  )

  /** `contract_type` (src/entity_registry.py:216-254). */
  const ContractType: EntityConfig := WithDefaultFlags(
    key := "contract_type",
    keyPlural := "contract_types",
    apiPath := "/contract_type",
    displayName := "Contract Type",
    displayNamePlural := "Contract Types",
    textSearchFields := ["contract_type"],
    keyFields := [
      ("contract_type", "string"),
      ("party_type", "string"),
      ("uses_tasks", "string"),
      ("default_cost_type", "string"),
      ("default_contract_term_in_months", "integer"),
      ("default_autorenewal_term_in_months", "integer"),
      ("default_days_in_advance_to_cancel_auto_renewal", "integer"),
      ("description", "string"),
      ("status", "string"),
      ("sort_order", "number"),
      ("available_for_record_types", "string"),
      ("default_renewal_type", "string"),
      ("default_workflow_title", "string"),
      ("default_task_workflow_title", "string"),
      ("default_question_set", "string"),
      ("self_serve_available", "string"),
      ("enable_ad_hoc_tasks", "string"),
      ("deleteable", "string")
    ],
    defaultSearchFields := ["id", "contract_type", "party_type", "status", "description", "sort_order", "available_for_record_types", "default_renewal_type", "default_contract_term_in_months", "default_workflow_title", "self_serve_available", "uses_tasks"],
    requiredFields := ["contract_type", "party_type", "uses_tasks", "default_cost_type", "default_contract_term_in_months", "default_autorenewal_term_in_months", "default_days_in_advance_to_cancel_auto_renewal"]
  )

  /** The `description` of a key field, by entity key and field name; empty for
      a field the entity does not declare. */
  function FieldDescription(entity: string, field: string): string {
    match entity
    case "contract" => ContractDescription(field)
    case "company" => CompanyDescription(field)
    case "attachment" => AttachmentDescription(field)
    case "contact" => ContactDescription(field)
    case "employee" => EmployeeDescription(field)
    case "customer" => CustomerDescription(field)
    case "contract_type" => ContractTypeDescription(field)
    case _ => ""
  }

  function ContractDescription(field: string): string {
    match field
    case "record_type" => "Contract record type (REQUIRED)"
    case "contract_title1" => "Contract title"
    case "company_name" => "Associated company name (LINKED FIELD - value MUST start with colon, e.g. ':Acme Corp')"
    case "contract_amount" => "Contract monetary amount"
    case "contract_start_date" => "Start date (YYYY-MM-DD)"
    case "contract_end_date" => "End date (YYYY-MM-DD)"
    case "contract_term_in_months" => "Term length in months"
    case "internal_contract_owner" => "Internal contract owner (LINKED FIELD - value MUST start with colon, e.g. ':Robert Barash')"
    case "contract_type" => "Type of contract (LINKED FIELD - value MUST start with colon, e.g. ':Services Agreement', ':Master Services Agreement', ':SaaS Agreement', ':Non-Disclosure Agreement')"
    case "contract_description" => "Contract description"
    case "contract_comments" => "Contract comments - use this field for analysis notes, review comments, and observations"
    case "wfstate" => "Contract status (workflow state)"
    case "confidential" => "Confidentiality level (REQUIRED)"
    case "evaluation_frequency" => "Evaluation frequency (REQUIRED)"
    case "auto_renewal_term_in_months" => "Auto-renewal term (REQUIRED)"
    case "date_signed" => "Date contract was signed"
    case "signer1_email" => "Primary signer email"
    case "cost_center" => "Cost center"
    case "annual_increase" => "Annual increase percentage"
    case _ => ""
  }

  function CompanyDescription(field: string): string {
    match field
    case "company_name" => "Company name (REQUIRED)"
    case "type_of_company" => "Type of company (REQUIRED)"
    case "status" => "Company status (REQUIRED)"
    case "industry" => "Industry classification"
    case "parent_company_id" => "Parent company ID"
    case "main_city" => "Main office city"
    case "country" => "Country"
    case "fax" => "Fax number"
    case "account_rep" => "Account representative"
    case "main_location_name" => "Main location name"
    case "ongoing_notes" => "Ongoing notes"
    case _ => ""
  }

  function AttachmentDescription(field: string): string {
    match field
    case "title" => "Attachment title (REQUIRED)"
    case "status" => "Attachment status (REQUIRED)"
    case "attached_file" => "Attached file reference (REQUIRED)"
    case "expiration_date" => "Expiration date (REQUIRED)"
    case "attachment_type" => "Type of attachment"
    case "contract_id" => "Associated contract ID"
    case "document_source" => "Document source"
    case "contract_type" => "Associated contract type"
    case "sorting_order" => "Display sorting order"
    case "include_in_approval_packet" => "Include in approval packet flag"
    case _ => ""
  }

  function ContactDescription(field: string): string {
    match field
    case "first_name" => "First name"
    case "last_name" => "Last name"
    case "full_name" => "Full name"
    case "email" => "Email address"
    case "company_name" => "Associated company names"
    case "company_id" => "Associated company ID"
    case "status" => "Contact status"
    case "type_of_contact" => "Type of contact"
    case "direct_phone" => "Direct phone number"
    case "cell_phone" => "Cell phone number"
    case "title" => "Job title"
    case "sso_auth_method" => "SSO auth method (REQUIRED)"
    case _ => ""
  }

  function EmployeeDescription(field: string): string {
    match field
    case "_login" => "Login username (REQUIRED)"
    case "password" => "Password (REQUIRED)"
    case "first_name" => "First name"
    case "last_name" => "Last name"
    case "full_name" => "Full name"
    case "email" => "Email address"
    case "company_name" => "Associated company names"
    case "status" => "Contact status"
    case "type_of_contact" => "Type of contact"
    case "department0" => "Department"
    case "title" => "Job title"
    case "sso_auth_method" => "SSO auth method (REQUIRED)"
    case "preferred_interface" => "Preferred UI interface"
    case _ => ""
  }

  function CustomerDescription(field: string): string {
    match field
    case "_login" => "Login username (REQUIRED)"
    case "password" => "Password (REQUIRED)"
    case "first_name" => "First name"
    case "last_name" => "Last name"
    case "full_name" => "Full name"
    case "email" => "Email address"
    case "company_name" => "Associated company names"
    case "status" => "Contact status"
    case "type_of_contact" => "Type of contact"
    case "title" => "Job title"
    case "sso_auth_method" => "SSO auth method (REQUIRED)"
    case _ => ""
  }

  function ContractTypeDescription(field: string): string {
    match field
    case "contract_type" => "Contract type name (REQUIRED)"
    case "party_type" => "Party type (REQUIRED)"
    case "uses_tasks" => "Uses tasks flag (REQUIRED)"
    case "default_cost_type" => "Default cost type (REQUIRED)"
    case "default_contract_term_in_months" => "Default contract term in months (REQUIRED)"
    case "default_autorenewal_term_in_months" => "Default auto-renewal term in months (REQUIRED)"
    case "default_days_in_advance_to_cancel_auto_renewal" => "Default days in advance to cancel auto-renewal (REQUIRED)"
    case "description" => "Contract type description"
    case "status" => "Contract type status"
    case "sort_order" => "Sort order"
    case "available_for_record_types" => "Available for record types"
    case "default_renewal_type" => "Default renewal type (linked field)"
    case "default_workflow_title" => "Default workflow title (linked field)"
    case "default_task_workflow_title" => "Default task workflow title (linked field)"
    case "default_question_set" => "Default question set for supplier evaluation (linked field)"
    case "self_serve_available" => "Self-serve available flag"
    case "enable_ad_hoc_tasks" => "Enable ad hoc tasks flag"
    case "deleteable" => "Deletable flag"
    case _ => ""
  }

  lemma ContractWellFormed()
    ensures EntityWellFormed(Contract)
  {
    assert Contract.keyFields[0].0 == Contract.requiredFields[0];
    assert Contract.keyFields[14].0 == Contract.requiredFields[1];
    assert Contract.keyFields[12].0 == Contract.requiredFields[2];
    assert Contract.keyFields[13].0 == Contract.requiredFields[3];
    assert Contract.keyFields[1].0 == Contract.textSearchFields[0];
    assert Contract.keyFields[2].0 == Contract.textSearchFields[1];
    assert Contract.defaultSearchFields[0] == "id";
  }

  lemma CompanyWellFormed()
    ensures EntityWellFormed(Company)
  {
    assert Company.keyFields[0].0 == Company.requiredFields[0];
    assert Company.keyFields[1].0 == Company.requiredFields[1];
    assert Company.keyFields[2].0 == Company.requiredFields[2];
    assert Company.keyFields[0].0 == Company.textSearchFields[0];
    assert Company.defaultSearchFields[0] == "id";
  }

  lemma AttachmentWellFormed()
    ensures EntityWellFormed(Attachment)
  {
    assert Attachment.keyFields[2].0 == Attachment.requiredFields[0];
    assert Attachment.keyFields[0].0 == Attachment.requiredFields[1];
    assert Attachment.keyFields[1].0 == Attachment.requiredFields[2];
    assert Attachment.keyFields[3].0 == Attachment.requiredFields[3];
    assert Attachment.keyFields[0].0 == Attachment.textSearchFields[0];
    assert Attachment.defaultSearchFields[0] == "id";
  }

  lemma ContactWellFormed()
    ensures EntityWellFormed(Contact)
  {
    assert Contact.keyFields[11].0 == Contact.requiredFields[0];
    assert Contact.keyFields[2].0 == Contact.textSearchFields[0];
    assert Contact.keyFields[4].0 == Contact.textSearchFields[1];
    assert Contact.defaultSearchFields[0] == "id";
  }

  lemma EmployeeWellFormed()
    ensures EntityWellFormed(Employee)
  {
    assert Employee.keyFields[0].0 == Employee.requiredFields[0];
    assert Employee.keyFields[1].0 == Employee.requiredFields[1];
    assert Employee.keyFields[11].0 == Employee.requiredFields[2];
    assert Employee.keyFields[4].0 == Employee.textSearchFields[0];
    assert Employee.keyFields[6].0 == Employee.textSearchFields[1];
    assert Employee.defaultSearchFields[0] == "id";
  }

  lemma CustomerWellFormed()
    ensures EntityWellFormed(Customer)
  {
    assert Customer.keyFields[0].0 == Customer.requiredFields[0];
    assert Customer.keyFields[1].0 == Customer.requiredFields[1];
    assert Customer.keyFields[10].0 == Customer.requiredFields[2];
    assert Customer.keyFields[4].0 == Customer.textSearchFields[0];
    assert Customer.keyFields[6].0 == Customer.textSearchFields[1];
    assert Customer.defaultSearchFields[0] == "id";
  }

  lemma ContractTypeWellFormed()
    ensures EntityWellFormed(ContractType)
  {
    assert ContractType.keyFields[0].0 == ContractType.requiredFields[0];
    assert ContractType.keyFields[1].0 == ContractType.requiredFields[1];
    assert ContractType.keyFields[2].0 == ContractType.requiredFields[2];
    assert ContractType.keyFields[3].0 == ContractType.requiredFields[3];
    assert ContractType.keyFields[4].0 == ContractType.requiredFields[4];
    assert ContractType.keyFields[5].0 == ContractType.requiredFields[5];
    assert ContractType.keyFields[6].0 == ContractType.requiredFields[6];
    assert ContractType.keyFields[0].0 == ContractType.textSearchFields[0];
    assert ContractType.defaultSearchFields[0] == "id";
  }

  /** The shipped registry's keys and plurals, spelled out. */
  const EntityKeys: seq<string> :=
    ["contract", "company", "attachment", "contact", "employee", "customer", "contract_type"]
  const EntityPlurals: seq<string> :=
    ["contracts", "companies", "attachments", "contacts", "employees", "customers", "contract_types"]

  lemma EntityKeysDistinct()
    ensures Distinct(EntityKeys) && Distinct(EntityPlurals)
    ensures forall i :: 0 <= i < |EntityKeys| ==> |EntityKeys[i]| < 16
  {
  }


  /** Every record of the shipped registry is well formed. */
  lemma RegistryEntitiesWellFormed()
    ensures forall i :: 0 <= i < |Registry| ==> EntityWellFormed(Registry[i].1)
  {
    ContractWellFormed();
    CompanyWellFormed();
    AttachmentWellFormed();
    ContactWellFormed();
    EmployeeWellFormed();
    CustomerWellFormed();
    ContractTypeWellFormed();
  }

  /** The keys and plurals of the shipped registry, in order. */
  lemma RegistryKeys()
    ensures forall i :: 0 <= i < |Registry| ==> Registry[i].0 == Registry[i].1.key == EntityKeys[i]
    ensures forall i :: 0 <= i < |Registry| ==> Registry[i].1.keyPlural == EntityPlurals[i]
  {
  }

  /** The shipped registry is well formed. */
  lemma RegistryWellFormed()
    ensures WellFormed(Registry)
  {
    RegistryEntitiesWellFormed();
    RegistryKeys();
    EntityKeysDistinct();
    forall i | 0 <= i < |Registry|
      ensures !Strings.IsPrefix("attachment_info_", Registry[i].1.key)
    {
      assert |Registry[i].1.key| < 16;
    }
  }

  /** No entity overrides a capability flag, so every entity supports every operation. */
  lemma AllCapabilitiesEnabled()
    ensures forall i :: 0 <= i < |Registry| ==>
      Registry[i].1.supportsAttach && Registry[i].1.supportsActionButton && Registry[i].1.supportsEvaluateFormat
  {
  }

  /** The company entity searches by default for a field it does not declare:
      default search fields need not be key fields. */
  lemma CompanySearchesUndeclaredField()
    ensures "number_of_active_contracts" in Company.defaultSearchFields
    ensures !Declares(Company, "number_of_active_contracts")
  {
  }
}
