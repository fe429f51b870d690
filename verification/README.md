# Agiloft MCP server core, modelled in Dafny

This project models the core of the Agiloft MCP server. The server exposes
the records of an Agiloft contract-management knowledge base as MCP tools.

- **Entity registry.** One configuration record per Agiloft table: contract,
  company, attachment, contact, employee, customer and contract type.
  Each record lists its key fields, default search fields, required fields,
  text-search fields and capability flags.
- **Tool generation.** The registry is turned into 84 entity tools and a
  dispatch table mapping each tool name to its `(entity, action)` pair.
- **Tool handlers.** Sanitised and structured searches, a free-text
  multi-field search with id de-duplication, the limit truncation, the
  create/update/upsert payload cleaning and the delete rule default.
  Every handler answers with a JSON envelope; the dispatcher routes each call.
- **Workflows.** Six multi-step tools:
  - contract preflight;
  - contract-with-company creation;
  - contract summary with health issues;
  - expiring-contract buckets;
  - company onboarding;
  - file attachment.

  Each has its JSON schema and its own dispatch table.
- **HTTP client.** Login, token freshness, request construction, the single
  re-login retry after a 401, and the result checks of the contract calls.
- **Configuration.** Built-in defaults, overlaid by the JSON configuration
  file, overlaid by environment variables. Also dotted-path `get`/`set`,
  validation and the masked display.

Everything outside the program is a parameter of the model:

- The Agiloft REST API seen by the handlers and workflows is a function
  from call to reply (`RecordApi.Api`).
- The HTTP server seen by the client is a function from (request number,
  request) to exchange (`AgiloftClient.Net`).
- The clock is a number of minutes, passed in. Date arithmetic in the
  workflows comes from functions passed in: days until a date, and the date
  N days from today.
- The file system is a function too: path to existence, file-ness and bytes.
- The base64 decoder, the process environment and the parsed configuration
  file are parameters as well.

Python semantics the code relies on are written out in `Json`:

- truthiness;
- `dict.get` with a default;
- `str()` of a JSON value;
- `in` on strings and lists;
- `int()` on strings.

Exceptions are the `Errors.Error` datatype. The adapter's own exceptions
carry their messages. A built-in `TypeError`/`AttributeError`/… is a tagged
constructor.

## Model

| member | source | states |
|---|---|---|
| Query.SanitizeProperties | src/tool_handlers.py:32-37 | sanitising doubles every single quote (the count doubles), leaves no `;`, and leaves every quote paired so the value cannot close the literal |
| Query.DoubledQuotesPaired | src/tool_handlers.py:34 | after quote doubling, quotes occur only in adjacent pairs |
| Query.CountDoubled | src/tool_handlers.py:34 | replacing a character by two copies exactly doubles its count |
| Query.NoDashPairAfterSecondStep | src/tool_handlers.py:35 | right after the `--` removal step no `--` remains |
| Query.SemicolonRemovalRejoinsDashes | src/tool_handlers.py:35-36 | `;` is removed after `--`, so `-;-` sanitises to `--`: the comment marker survives |
| Query.SanitizeKeepsCleanValue | src/tool_handlers.py:32-37 | a value without quotes, semicolons or `--` passes unchanged |
| Query.HasComparisonIff | src/tool_handlers.py:40-49 | the comparison-operator pattern matches exactly when an operator follows a word (`\w+\s*(op)`) |
| Query.StructuredExamples | src/tool_handlers.py:40-49 | `status='Active'` and `a and b` are treated as structured queries |
| Query.PlainWordNotStructured | src/tool_handlers.py:40-49 | a bare word is not structured, so it goes to the free-text search |
| Query.NoKeywordOfOtherLength | src/tool_handlers.py:40-49 | inside a single word, `\b` leaves no room for a keyword shorter or longer than the word, nor for `IS NULL` |
| Query.AccentedWords | src/tool_handlers.py:40-49 | accented letters are word characters: "Inés" contains no `\bIN\b` and is free text, while "é=1" is a comparison |
| ToolHandlers.Render | src/tool_handlers.py:54-89 | the envelope always has success/operation/entity; `record_id` only when given; `data` on success, with `count` exactly when the data is a list; `error` only on failure; no other keys |
| ToolHandlers.PassThrough | src/tool_handlers.py:131-141 | one API call; a reply becomes a success envelope with that data, an exception becomes an error envelope with its text |
| ToolHandlers.StripEmpty | src/tool_handlers.py:144-146 | exactly the keys whose value is neither None nor "" survive, with their values |
| ToolHandlers.StripEmptyIdempotent | src/tool_handlers.py:144-146 | stripping twice is stripping once; 0, False and [] are kept |
| ToolHandlers.DataArgument | src/tool_handlers.py:152 | the `data` argument is accepted iff it is a dict (default `{}`) and is then stripped; anything else is an AttributeError |
| ToolHandlers.Dedup | src/tool_handlers.py:109-120 | the merge succeeds iff every record is a dict |
| ToolHandlers.KeepFirstsIds | src/tool_handlers.py:109-120 | de-duplication keeps the set of ids |
| ToolHandlers.KeepFirstsDistinct | src/tool_handlers.py:109-120 | the de-duplicated records have pairwise different ids |
| ToolHandlers.KeepFirstsSubset | src/tool_handlers.py:109-120 | every kept record is one of the input records |
| ToolHandlers.DedupIsKeepFirsts | src/tool_handlers.py:111-118 | the loop with its `seen` set computes the first-occurrence-per-id reference definition |
| ToolHandlers.MergeSearch | src/tool_handlers.py:109-120 | one search per text field, in order, with `field~='value'`; a full run sends one call per field |
| ToolHandlers.MergeSearchKeepsFirsts | src/tool_handlers.py:109-120 | the merged result is the first record per id over all replies in field order |
| ToolHandlers.SlicePrefix | src/tool_handlers.py:124-125 | Python slicing `[:n]`: a prefix of n items, and for negative n all but the last -n |
| ToolHandlers.TruncateWithinSchema | src/tool_handlers.py:124-125 | for a limit of at least 1, a list result is cut to its first min(len, limit) items and anything else is unchanged |
| ToolHandlers.TruncateBelowMinimum | src/tool_handlers.py:124-125 | a limit of 0 gives [] and a limit of -1 drops the last record: the handler applies no lower bound |
| ToolHandlers.HandleSearch | src/tool_handlers.py:94-128 | a search always returns an envelope for `search` on its entity, without record id |
| ToolHandlers.SearchStructured | src/tool_handlers.py:101-128 | a structured query is sent unchanged in one call with the given or default fields; the envelope carries the reply cut to `limit`, or the error text of the search or of the cut |
| ToolHandlers.SearchFreeText | src/tool_handlers.py:105-120 | free text becomes one sanitised `~=` search per text field; on success the data is the de-duplicated, truncated merge |
| ToolHandlers.SearchRawQuery | src/tool_handlers.py:121-128 | with no text fields, or a blank query, the query is passed through in one call; the envelope carries the reply cut to `limit`, or the error text of the search or of the cut |
| ToolHandlers.BlankQueryPassedThrough | src/tool_handlers.py:105-122 | a blank query is never sanitised or split by field |
| ToolHandlers.WithData | src/tool_handlers.py:149-197 | a bad `data` argument raises before any call; a good one continues with the stripped data |
| ToolHandlers.WritesSendStrippedData | src/tool_handlers.py:149-197 | create, update and upsert send the stripped data, with the record id or query |
| ToolHandlers.HandlerEnvelopes | src/tool_handlers.py:149-292 | every envelope names the action and entity; only search calls more than once; only create/update/upsert raise, and only on bad data |
| ToolHandlers.GetPassesThrough | src/tool_handlers.py:131-141 | get sends one call with record id and fields and reports its reply |
| ToolHandlers.DeleteDefaultRule | src/tool_handlers.py:174-184 | without `delete_rule` the delete call uses UNLINK_WHERE_POSSIBLE_OTHERWISE_DELETE |
| ToolHandlers.AttachRejectsBadBase64 | src/tool_handlers.py:200-211 | undecodable content gives an "Invalid base64 content: " error envelope and no call |
| ToolHandlers.DispatchToolCall | src/tool_handlers.py:313-334 | unknown tool: ValueError; unknown entity: the registry's error; unknown action: ValueError; otherwise the action's handler |
| ToolHandlers.GeneratedToolsDispatch | src/tool_handlers.py:313-334 | every generated tool dispatches to the handler of the action and entity it was generated from |
| ToolHandlers.UnknownToolRaises | src/tool_handlers.py:324-325 | a name outside the dispatch table raises `Unknown tool: <name>` |
| EntityRegistry.WithDefaultFlags | src/entity_registry.py:15-39 | a record built without flags supports attachments, action buttons and format evaluation |
| EntityRegistry.Find | src/entity_registry.py:258-263 | finds a record iff the key is registered, and returns that key's record |
| EntityRegistry.Lookup | src/entity_registry.py:258-263 | succeeds iff the key is registered; otherwise a ValueError whose text names every registered key |
| EntityRegistry.UnknownEntityMessageListsKeys | src/entity_registry.py:260-262 | the unknown-entity message mentions every registered key |
| EntityRegistry.LookupKey | src/entity_registry.py:258-263 | in a well-formed registry the record found carries the key it was looked up by |
| EntityRegistry.LookupRecord | src/entity_registry.py:258-263 | looking up a record's own key returns that record |
| EntityRegistry.GetEntity | src/entity_registry.py:258-268 | `get_entity` succeeds exactly for the keys of `list_entities`, returning that key's record |
| EntityRegistry.ContractWellFormed | src/entity_registry.py:47-83 | the contract record's required and text-search fields are declared key fields, and it searches `id` |
| EntityRegistry.CompanyWellFormed | src/entity_registry.py:84-109 | same for the company record |
| EntityRegistry.AttachmentWellFormed | src/entity_registry.py:110-134 | same for the attachment record |
| EntityRegistry.ContactWellFormed | src/entity_registry.py:135-161 | same for the contact record |
| EntityRegistry.EmployeeWellFormed | src/entity_registry.py:162-189 | same for the employee record |
| EntityRegistry.CustomerWellFormed | src/entity_registry.py:190-215 | same for the customer record |
| EntityRegistry.ContractTypeWellFormed | src/entity_registry.py:216-254 | same for the contract-type record |
| EntityRegistry.EntityKeysDistinct | src/entity_registry.py:46-255 | entity keys are pairwise different, and so are the plural names |
| EntityRegistry.RegistryWellFormed | src/entity_registry.py:46-255 | the shipped registry is keyed by each record's own key, with unique keys and plurals, and every record is well formed |
| EntityRegistry.AllCapabilitiesEnabled | src/entity_registry.py:37-39 | every shipped entity has all three capability flags set |
| EntityRegistry.CompanySearchesUndeclaredField | src/entity_registry.py:104-107 | the company's default search fields include `number_of_active_contracts`, which is not a declared key field |
| ToolGenerator.ParseAction | src/tool_generator.py:394-407 | parsing an action string returns only an action with that name |
| ToolGenerator.ParseName | src/tool_generator.py:394-407 | parsing an action's name gives back the action |
| ToolGenerator.ParseActionExact | src/tool_generator.py:394-407 | a string parses iff it is some action's name |
| ToolGenerator.NameInjective | src/tool_generator.py:394-407 | different actions have different names |
| ToolGenerator.FieldPropsContents | src/tool_generator.py:36-49 | the data properties are exactly the key fields, each with the type and description of its last declaration |
| ToolGenerator.DataSchema | src/tool_generator.py:36-49 | the data schema is an open object whose properties are exactly the entity's key fields |
| ToolGenerator.Generate | src/tool_generator.py:30-33 | a tool is named `agiloft_<action>_<key>` (plural key for search) and is dispatched to its own action |
| ToolGenerator.GeneratedSchemasDeclareRequired | src/tool_generator.py:56-390 | every required parameter of every generated schema is a declared property |
| ToolGenerator.SearchLimitDefault | src/tool_generator.py:84-90 | the search tool's `limit` is an integer, default 50, bounded 1 to 500 |
| ToolGenerator.DeleteRuleDefault | src/tool_generator.py:185-190 | the delete tool offers the four delete rules, defaulting to UNLINK_WHERE_POSSIBLE_OTHERWISE_DELETE |
| ToolGenerator.OpsAreSupportedActions | src/tool_generator.py:421-431 | the operations of an entity are the supported actions, in declaration order |
| ToolGenerator.GroupsSupported | src/tool_generator.py:421-431 | filtering the action table keeps the six core actions, the attachment group exactly when attachments are on, and each flag-gated action exactly when its flag is on |
| ToolGenerator.SupportedMembers | src/tool_generator.py:421-431 | an action survives the flag filter exactly when it is in the table and the entity supports it |
| ToolGenerator.OpsCount | src/tool_generator.py:421-431 | six core operations, plus four for attachments, plus one per other enabled flag |
| ToolGenerator.OpsExact | src/tool_generator.py:421-431 | an entity's operations are distinct, and an action is among them iff the entity supports it |
| ToolGenerator.EntityEntries | src/tool_generator.py:433-438 | one generated tool per operation, in order |
| ToolGenerator.GenerateTools | src/tool_generator.py:410-440 | one tool per (entity, operation); the dispatch table's names are exactly the tool names |
| ToolGenerator.ToolNameParts | src/tool_generator.py:30-33 | two tool names agree only if action and key agree, except for the get/get_attachment_info overlap |
| ToolGenerator.SameNameSameEntry | src/tool_generator.py:30-33 | for keys not starting with `attachment_info_`, equal tool names mean the same action and entity key |
| ToolGenerator.ToolNamesDistinct | src/tool_generator.py:410-440 | in a well-formed registry all generated tool names are different |
| ToolGenerator.GenerateToolsDispatch | src/tool_generator.py:433-438 | the dispatch table has one entry per tool, mapping each name to its entity and action |
| ToolGenerator.ShippedToolCount | src/tool_generator.py:410-440 | the shipped registry yields 84 tools and 84 dispatch entries |
| WorkflowHandlers.RenderReport | src/workflow_handlers.py:52-92 | a workflow answer has success and operation; `data` and non-empty `next_steps`/`warnings` on success; `error` and non-empty `partial_data` on failure; nothing else |
| WorkflowHandlers.PartialData | src/workflow_handlers.py:75-92 | partial data is reported iff it is non-empty |
| WorkflowHandlers.EnsureLinkedPrefix | src/workflow_handlers.py:34-45 | linked fields holding a non-empty string without `:` gain a `:` prefix; nothing else changes |
| WorkflowHandlers.EnsureLinkedPrefixIdempotent | src/workflow_handlers.py:34-45 | prefixing twice is prefixing once, and every non-empty linked string ends up starting with `:` |
| WorkflowHandlers.CheckCompany | src/workflow_handlers.py:161-199 | no company name: not ready, no call; otherwise one company search; a not-ready check always carries a warning |
| WorkflowHandlers.CompanyWarningsIff | src/workflow_handlers.py:184-195 | a party-type mismatch warning iff both party types are set and differ; an inactive warning iff the status is not `Active`; at most two warnings |
| WorkflowHandlers.PreflightReport | src/workflow_handlers.py:201-238 | `ready_to_create` is true exactly when the company check is ready and has no warnings |
| WorkflowHandlers.ListContractTypes | src/workflow_handlers.py:113-130 | without a contract type: one search of the types, and the answer is never ready |
| WorkflowHandlers.UnknownContractType | src/workflow_handlers.py:133-156 | an unknown type warns ContractTypeNotFound and reports not ready |
| WorkflowHandlers.CheckKnownType | src/workflow_handlers.py:156-238 | for a found type the readiness is consistent with the warnings; with no company it is ready; at most one company search |
| WorkflowHandlers.Preflight | src/workflow_handlers.py:99-241 | preflight sends at most two searches; a completed report is ready iff a contract type was given and nothing was warned; with a type but no company it is ready iff the type was found |
| WorkflowHandlers.ContractDataLinksCompany | src/workflow_handlers.py:288-292 | the contract is created with `company_name` set to `:` plus the company name |
| WorkflowHandlers.CreateContract | src/workflow_handlers.py:287-311 | at most one contract create follows the earlier calls; a failure carries the company step as partial data |
| WorkflowHandlers.CompanyCreateData | src/workflow_handlers.py:274-276 | the new company carries the given name and the non-empty company data |
| WorkflowHandlers.CreateCompanyAndContract | src/workflow_handlers.py:272-279 | a missing company is created before the contract |
| WorkflowHandlers.CreateContractWithCompany | src/workflow_handlers.py:248-311 | the first call is always the company search by the raw (unsanitised) name |
| WorkflowHandlers.CreateContractBranches | src/workflow_handlers.py:263-311 | a found company is reused and only the contract created; a missing one is created when allowed, else the workflow fails after the search; success ends with the linked contract create and says whether the company was found |
| WorkflowHandlers.DateIssue | src/workflow_handlers.py:373-392 | at most one date note |
| WorkflowHandlers.DateIssueThresholds | src/workflow_handlers.py:373-392 | expired iff days < 0, urgent iff 0 to 30, soon iff 31 to 90, nothing beyond 90 or without a date |
| WorkflowHandlers.FieldIssues | src/workflow_handlers.py:395-405 | a missing-amount, no-owner or not-signed note iff that field is falsy; a status note iff the status is a bad one |
| WorkflowHandlers.HealthIssues | src/workflow_handlers.py:370-405 | date notes come first, followed by the field notes |
| WorkflowHandlers.CompanyDetails | src/workflow_handlers.py:343-358 | one company search by name; a company found means no warning |
| WorkflowHandlers.WithHealth | src/workflow_handlers.py:370-408 | `days_remaining` iff the date parsed; `health_issues` iff there are issues; other keys are kept |
| WorkflowHandlers.SummarizeContract | src/workflow_handlers.py:343-428 | a summary fetches the company only when linked, then the attachments; health data as above |
| WorkflowHandlers.ContractSummary | src/workflow_handlers.py:318-428 | the first call gets the contract by id with the summary fields; the summary completes iff that returned a dict with a usable company link; a later failure carries the contract as partial data |
| WorkflowHandlers.UrgencyOf | src/workflow_handlers.py:488-499 | expired below 0, urgent to 30, upcoming to 60, planning beyond |
| WorkflowHandlers.Categorize | src/workflow_handlers.py:479-503 | categorising succeeds iff every record is a dict |
| WorkflowHandlers.CategorizePartitions | src/workflow_handlers.py:479-503 | each bucket holds exactly its urgency's records, in order; undated records give one warning each |
| WorkflowHandlers.InBucketLabelled | src/workflow_handlers.py:479-503 | every bucketed record carries its urgency label and days remaining |
| WorkflowHandlers.ExpirySummary | src/workflow_handlers.py:505-512 | the summary reports the total found and the requested range |
| WorkflowHandlers.ExpiryNextSteps | src/workflow_handlers.py:519-533 | an urgent step iff urgent contracts; an upcoming step iff upcoming ones; a none-found step iff no results |
| WorkflowHandlers.ExpiryReport | src/workflow_handlers.py:505-538 | the report lists the buckets, and `expired` iff expired contracts were asked for |
| WorkflowHandlers.FindExpiring | src/workflow_handlers.py:435-541 | a day count that is not an integer fails without calls; otherwise exactly one search over the expiry window |
| WorkflowHandlers.FindExpiringBuckets | src/workflow_handlers.py:463-541 | a successful run made one search with limit 200 and reports each bucket of the returned records, `expired` iff asked, and their total |
| WorkflowHandlers.AddContact | src/workflow_handlers.py:597-609 | at most one contact create; a contact dict is created linked to the company |
| WorkflowHandlers.Onboard | src/workflow_handlers.py:548-626 | onboarding reports under its own operation; its branches are stated by WorkflowHandlers.OnboardBranches |
| WorkflowHandlers.OnboardBranches | src/workflow_handlers.py:556-626 | no company name fails with no call; an existing company is skipped with a warning or fails, as the skip flag says; a missing one is created from the stripped data |
| WorkflowHandlers.ContactLinkedToCompany | src/workflow_handlers.py:599-601 | the contact is created with `company_name` linked and its other fields kept |
| WorkflowHandlers.TmpPathsAreNotSandbox | src/workflow_handlers.py:665-666 | `/tmp/report.pdf` is not a sandbox path; `/tmp/sandbox/...` and `/mnt/...` are |
| WorkflowHandlers.BaseName | src/workflow_handlers.py:694 | the base name is the slash-free tail after the last `/` |
| WorkflowHandlers.AttachmentId | src/workflow_handlers.py:740-752 | the id is read from `result`: an int as is, a numeric string parsed, a dict's `id`; a non-dict reply is an AttributeError |
| WorkflowHandlers.AttachmentIdFromString | src/workflow_handlers.py:740-745 | an id returned as a decimal string is converted to that integer |
| WorkflowHandlers.AttachSteps | src/workflow_handlers.py:711-792 | the upload steps report under the attach operation; their calls are stated by WorkflowHandlers.AttachCreatesLinkRecord |
| WorkflowHandlers.AttachCreatesLinkRecord | src/workflow_handlers.py:729-773 | the only create is the attachment record (second call) with the contract's title; no id fails after two calls; success takes four calls and uploads the bytes under the file name |
| WorkflowHandlers.AttachToContract | src/workflow_handlers.py:633-792 | the attach workflow reports under its own operation; its pre-checks are stated by WorkflowHandlers.AttachPrechecks |
| WorkflowHandlers.AttachPrechecks | src/workflow_handlers.py:656-709 | an empty path, a sandbox path, an unreadable file or an empty file makes no call |
| WorkflowHandlers.ParseHandler | src/workflow_handlers.py:799-806 | a handler name parses only to the workflow registered under it |
| WorkflowHandlers.ParseHandlerName | src/workflow_handlers.py:799-806 | every workflow's handler name parses back to it |
| WorkflowHandlers.WorkflowsReportTheirName | src/workflow_handlers.py:799-806 | each workflow reports under its own operation; only onboarding and attach can raise |
| WorkflowHandlers.DispatchWorkflowCall | src/workflow_handlers.py:809-829 | unknown tool: ValueError; unknown handler: ValueError; otherwise the workflow |
| WorkflowTools.PreflightSchema | src/workflow_tools.py:62 | no required argument; the properties are contract_type and company_name |
| WorkflowTools.CreateWithCompanySchema | src/workflow_tools.py:103 | contract_data and company_name are required and declared |
| WorkflowTools.SummarySchema | src/workflow_tools.py:123 | contract_id is required and declared |
| WorkflowTools.ExpiringSchema | src/workflow_tools.py:156 | no required argument |
| WorkflowTools.OnboardSchema | src/workflow_tools.py:215 | company_data is required and declared |
| WorkflowTools.AttachSchema | src/workflow_tools.py:264 | contract_id and file_path are required and declared |
| WorkflowTools.GenerateWorkflowTools | src/workflow_tools.py:17-30 | one tool per workflow in order; the dispatch names are exactly the tool names |
| WorkflowTools.RequiredArguments | src/workflow_tools.py:37-266 | each workflow tool requires exactly its listed arguments, all declared |
| WorkflowTools.NamesDistinct | src/workflow_tools.py:269-276 | workflow tool names and handler names are pairwise different |
| WorkflowTools.HandlersRegistered | src/workflow_tools.py:269-276 | every handler named in the tool list is a registered workflow |
| WorkflowTools.DispatchTable | src/workflow_tools.py:269-276 | every workflow tool dispatches to its handler name |
| WorkflowTools.GeneratedWorkflowsDispatch | src/workflow_tools.py:17-30 | calling a workflow tool runs its workflow |
| WorkflowTools.NoClashWithEntityTools | src/workflow_tools.py:269-276 | no workflow tool name equals a generated entity tool name |
| WorkflowTools.NoClashWithShippedTools | src/workflow_tools.py:269-276 | same for the shipped registry |
| AgiloftClient.SettingsFrom | src/agiloft_client.py:28-33 | the client reads its settings from the configuration, language defaulting to `en`; a falsy password means the configuration does not validate |
| AgiloftClient.EnvPasswordReachesClient | src/agiloft_client.py:28-33 | a password in AGILOFT_PASSWORD is the one the client logs in with |
| AgiloftClient.DescribedConfigMasksClientPassword | src/config.py:211-216 | after the configuration is shown, the client would read the masked password |
| AgiloftClient.Transmit | src/agiloft_client.py:128-188 | sending logs exactly one request and changes nothing else |
| AgiloftClient.NeedsAuthStays | src/agiloft_client.py:62-72 | a token that needs renewing stays so as time passes |
| AgiloftClient.LoginRequest | src/agiloft_client.py:74-88 | login is a POST whose body has exactly login, password, KB and lang |
| AgiloftClient.RefusedIffNotGranted | src/agiloft_client.py:90-101 | login is refused iff the answer is not a 200 with a truthy success flag |
| AgiloftClient.Authenticate | src/agiloft_client.py:74-115 | one login request; on refusal an error and unchanged tokens; on success the tokens and expiry from the reply |
| AgiloftClient.FreshAfterLogin | src/agiloft_client.py:62-72 | right after a login, renewal is needed iff no token came or it lives at most a minute |
| AgiloftClient.EnsureAuthenticated | src/agiloft_client.py:62-72 | a fresh token sends nothing; otherwise exactly one login request |
| AgiloftClient.AuthHeaders | src/agiloft_client.py:117-126 | no token is an auth error; otherwise Bearer authorisation and JSON content headers |
| AgiloftClient.RequestUrl | src/agiloft_client.py:133 | the URL is the base URL without trailing slash, `/`, and the endpoint without leading slash |
| AgiloftClient.UrlIgnoresLeadingSlash | src/agiloft_client.py:133 | `/x` and `x` give the same URL |
| AgiloftClient.WithLanguage | src/agiloft_client.py:137-140 | `lang` is added only when absent; the other parameters are kept |
| AgiloftClient.WithLanguageIdempotent | src/agiloft_client.py:137-140 | adding the language twice is adding it once |
| AgiloftClient.MergeHeaders | src/agiloft_client.py:141-145 | caller headers override the defaults; all keys of both are present |
| AgiloftClient.Resend | src/agiloft_client.py:154-172 | the retry sends once with fresh headers; 200 gives the body, anything else an error marked as after re-authentication |
| AgiloftClient.Retry | src/agiloft_client.py:154-172 | a 401 triggers exactly one login and at most one resend; a failed login is reported |
| AgiloftClient.Answer | src/agiloft_client.py:154-188 | 200 gives the body; 401 retries; other statuses and client errors become API errors |
| AgiloftClient.MakeRequest | src/agiloft_client.py:128-188 | a request sends at most two API requests and two logins, logging in first when the token needs renewing |
| AgiloftClient.LiveTokenSendsFirst | src/agiloft_client.py:128-188 | with a live token the request goes out first and its answer decides |
| AgiloftClient.FirstRequestShape | src/agiloft_client.py:133-145 | the first request carries the verb, body, URL, language and authorisation, caller headers overriding |
| AgiloftClient.SearchBody | src/agiloft_client.py:192-200 | the search body holds the query, an empty search, and the requested or default fields |
| AgiloftClient.SearchResult | src/agiloft_client.py:201-209 | success iff the reply's success flag is truthy; then the result (default []); else "Search failed: " and the message |
| AgiloftClient.SearchContracts | src/agiloft_client.py:192-209 | one POST to /contract/search, checked as above |
| AgiloftClient.Locate | src/agiloft_client.py:226-241 | a record is found in a dict answer exactly when it has a `result`, `contract` or `id` key; `result` takes precedence over `contract`, and the answer itself is the record only when it carries an `id`; otherwise the not-found API error |
| AgiloftClient.LocateFindsWrappedRecord | src/agiloft_client.py:226-235 | a record wrapped under `result` or `contract`, or sent bare with its `id`, is returned as sent |
| AgiloftClient.FilterFields | src/agiloft_client.py:244-249 | exactly the requested fields that the record has are kept, with their values |
| AgiloftClient.ContractParams | src/agiloft_client.py:213-216 | `fields` is sent, comma-joined, iff fields were requested |
| AgiloftClient.Retrieved | src/agiloft_client.py:223-251 | an answer that is not a dict raises AttributeError at the key-listing debug line, so a list answer is never searched; a dict answer is searched for the record; with fields requested the result is the field filter of the located record |
| AgiloftClient.RetrievedKeepsRequestedFields | src/agiloft_client.py:243-249 | with fields requested and a dict record, the result holds exactly the requested fields the record has, with their values |
| AgiloftClient.GetContract | src/agiloft_client.py:211-251 | one GET of `/contract/<id>` with the field parameters; a failed request fails the call, and an answer gives what `Retrieved` makes of it |
| AgiloftClient.ErrorDetails | src/agiloft_client.py:257-263 | the error list renders iff it is a list of dicts with string messages, joined by `; ` |
| AgiloftClient.AddText | src/agiloft_client.py:262 | `error_msg += text`: a string message is concatenated, a list message is extended by the text's characters, any other message raises TypeError |
| AgiloftClient.FailureText | src/agiloft_client.py:257-263 | without errors the failure text is the message (default "Unknown error"); with errors, a string message gets " - " and the joined error messages, a list message is extended and printed, and any other message raises TypeError |
| AgiloftClient.ListMessageStillReported | src/agiloft_client.py:257-263 | a failed write whose message is a list and whose errors render still raises the operation's API error |
| AgiloftClient.WriteOutcome | src/agiloft_client.py:253-297 | success iff the success flag is truthy (create and update default true, delete false); else "<op> failed: " and the details |
| AgiloftClient.FailureReportsEveryError | src/agiloft_client.py:257-263 | a failed write's message starts with the message and contains every error text |
| AgiloftClient.CreateContract | src/agiloft_client.py:253-265 | one POST of the data to /contract, checked as a create |
| AgiloftClient.UpdateContract | src/agiloft_client.py:267-279 | one PUT of the data to /contract/<id>, checked as an update |
| AgiloftClient.DeleteContract | src/agiloft_client.py:281-297 | one DELETE with the delete rule, checked as a delete |
| AgiloftClient.MissingSuccessFlag | src/agiloft_client.py:201-297 | without a success flag create and update succeed, while delete and search fail |
| AgiloftClient.Logout | src/agiloft_client.py:301-312 | with a token, logout sends a request and then clears both tokens and the expiry, whatever the request did; without one nothing happens |
| AgiloftClient.LoggedOutIsFresh | src/agiloft_client.py:301-312 | after a logout the client holds the same (empty) tokens and expiry as a newly constructed client, with its settings unchanged |
| AgiloftClient.LoggedOutReauthenticates | src/agiloft_client.py:301-312 | after logout the next request needs a new login |
| Configuration.Merge | src/config.py:73-79 | keys are the union; base-only keys keep their value; an override wins unless both sides are dicts, which merge recursively |
| Configuration.MergeIdempotent | src/config.py:73-79 | merging the same override twice is merging once |
| Configuration.MergeOverrideWins | src/config.py:73-79 | a non-dict value at a path of the override is the merged value at that path |
| Configuration.MergeBaseSurvives | src/config.py:73-79 | paths under a top-level key the override lacks are unchanged |
| Configuration.SetIn | src/config.py:102-115 | setting fails with TypeError iff a non-dict blocks the path; otherwise missing levels are created and other keys kept |
| Configuration.Set | src/config.py:144-156 | `set` on a dotted path is the nested set on its components |
| Configuration.SetThenGet | src/config.py:132-156 | after a successful set, get at that path returns the value |
| Configuration.SetKeepsOtherPaths | src/config.py:132-156 | a set leaves every path that diverges from it unchanged |
| Configuration.ConvertType | src/config.py:117-130 | an environment string becomes a bool (true/1/yes/on) or an int (ValueError if not one) after the current value's type, else stays a string |
| Configuration.ConvertIntRoundTrip | src/config.py:117-130 | an integer's decimal text converts back to that integer over an int setting |
| Configuration.SetFromEnv | src/config.py:102-115 | the environment value is converted after the existing value and stored at the path; a non-dict parent of the last key raises AttributeError (from `current.get`), a non-dict earlier on the path TypeError |
| Configuration.TwoKeyBlockIsAttributeError | src/config.py:102-115 | on the two-key paths of the environment mapping, a blocked path always fails with AttributeError |
| Configuration.ApplyEnv | src/config.py:81-100 | with no variable set the configuration is unchanged |
| Configuration.ApplyEnvSets | src/config.py:81-100 | a set variable decides its path: the converted value is stored there |
| Configuration.ApplyEnvKeeps | src/config.py:81-100 | paths diverging from every set variable's path are untouched |
| Configuration.EnvMappingsWellFormed | src/config.py:84-94 | the nine variables map to distinct dotted paths without further dots |
| Configuration.FileLayer | src/config.py:36-50 | no file gives the defaults; a broken file is a configuration error naming it; a dict merges over the defaults |
| Configuration.Load | src/config.py:33-53 | loading is the file layer followed by the environment layer |
| Configuration.FileBeatsDefaults | src/config.py:36-50 | a file value overrides the default at its path |
| Configuration.EnvBeatsFile | src/config.py:33-100 | a set variable overrides the file and the defaults at its path |
| Configuration.UnsetKeepsFile | src/config.py:33-100 | an unset variable leaves the file's value at its path |
| Configuration.MissingFields | src/config.py:158-177 | the missing fields are exactly the listed fields whose value is falsy |
| Configuration.Validate | src/config.py:158-177 | the configuration validates iff base URL, username, password and KB are all truthy |
| Configuration.DefaultPassword | src/config.py:55-61 | the default `agiloft.password` is the empty string |
| Configuration.DefaultsNeedPassword | src/config.py:55-71 | the built-in defaults do not validate: the password is empty |
| Configuration.Describe | src/config.py:179-181 | showing the configuration masks a present agiloft password, and the live configuration is masked with it since `to_dict` does not copy |
| Configuration.DescribeClobbersPassword | src/config.py:211-216 | after showing, the live agiloft password reads `***masked***` |

## Left out
- Query.HasComparisonIff: `\w` is modelled as ASCII letters, digits and `_`, the Latin-1 letters and numerals, and the letters U+0100 to U+02C1. Python's `\w` also accepts letters and digits of other scripts (Greek, Cyrillic, CJK, non-ASCII decimal digits and so on), which the model treats as non-word characters; the Unicode tables are not reproduced.
- Tool, parameter and workflow description texts, and the prose of next steps and warnings, are human-readable text. Workflows produce tagged notes that carry the interpolated values.
- The message texts of Python built-in exceptions are not reproduced. A tagged `Errors.Builtin` constructor stands for each.
- `json.dumps` and MCP `TextContent` wrapping are left out: handlers return the envelope as a JSON value.
- Base64 decoding, the file system, the clock and date parsing are parameters, for the reasons given above.
- Floating-point values are not modelled in the JSON datatype. This covers float amounts and the float branch of `_convert_type` (config.py:117-130).
- `timedelta` overflow on huge day counts is not modelled.
- Concurrency, the aiohttp session, the authentication lock and logging are out of scope. Log lines are left out except where building their text raises (the key listing in `get_contract`), which is modelled.
- The `if generator` guard in tool generation (tool_generator.py:434) is always true for the shipped actions, so it is not modelled.
- `str()` of a list or dict is not reproduced character for character.
- Python's `True == 1` is modelled only where the id de-duplication depends on it.
- Workflow queries built from user input (workflow_handlers.py:133, 263) are modelled as written: they are not sanitised.
- The attach tool's description mentions `/tmp`, but the code refuses only paths starting with `/mnt/`, `/home/claude`, `/tmp/sandbox` or `/sandbox/` (workflow_handlers.py:665-666). The model follows the code.
- The in-place annotation of records in `find_expiring` is modelled as building new annotated records.
- `create_contract_with_company` writes `company_name` into the caller's `contract_data` dict in place (src/workflow_handlers.py:288) before copying it; the model builds a new record and does not model the caller seeing the changed dict.
- Response bodies that are not JSON are not modelled: every answer carries a JSON value.
- `create_example_config` (config.py:183-209) writes a file of documentation and is left out.
- Configuration.Describe: aliasing between dicts set by the user and the stored configuration is not modelled. Only the masking of the live `agiloft` dict is.
- Configuration.FileLayer: the error message uses the path as given, not Python's normalised `str(Path)`. For a file that is not valid UTF-8, Python lets a UnicodeDecodeError escape (it is not among the caught exceptions); the model reports the file as Broken.
- Configuration.ConvertType: lower-casing and integer parsing cover ASCII only.
- WorkflowHandlers.AttachmentId: a string id is parsed with ASCII digits only, while Python's `int()` also accepts other Unicode decimal digits.
- The MCP server wiring, prompt registry and example scripts are not part of this model.
- Some tests in the repository disagree with the code; the model follows the code:
  - tests/test_agiloft_client.py:290 and 392-422;
  - tests/test_config.py:17-26.
