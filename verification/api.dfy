/**
 * The record-level interface of the Agiloft client that the entity handlers
 * and the workflows call (`search_records`, `get_record`, `create_record`,
 * ...). Those methods are not part of this model: a call is a value, and the
 * remote side is an oracle that answers each call with a value or an error.
 * Handlers return the calls they made, in order, beside their result.
 */
module RecordApi {
  import opened Wrappers
  import opened Json
  import opened Errors

  type Bytes = seq<bv8>

  datatype Call =
    | SearchRecords(path: string, query: Value, fields: Value)
      /** `search_records(path, query, fields, limit=n)` */
    | SearchRecordsLimit(path: string, query: Value, fields: Value, limit: int)
    | GetRecord(path: string, id: Value, fields: Value)
    | CreateRecord(path: string, data: Object)
    | UpdateRecord(path: string, id: Value, data: Object)
    | DeleteRecord(path: string, id: Value, rule: Value)
    | UpsertRecord(path: string, query: Value, data: Object)
    | AttachFile(path: string, id: Value, field: Value, fileName: Value, content: Bytes)
    | RetrieveAttachment(path: string, id: Value, field: Value, position: Value)
    | RemoveAttachment(path: string, id: Value, field: Value, position: Value)
    | GetAttachmentInfo(path: string, id: Value, field: Value)
    | TriggerActionButton(path: string, id: Value, button: Value)
    | EvaluateFormat(path: string, id: Value, formula: Value)

  /** What an awaited client call produced: its return value or the
      exception it raised. */
  datatype Reply = Returned(value: Value) | Raised(error: Error)

  /** The remote side: the answer to each call. */
  type Api = Call -> Reply

  /** Making one call: its value, or the exception it raised. */
  function Ask(api: Api, call: Call): (r: Result<Value, Error>)
    ensures r.Ok? <==> api(call).Returned?
    ensures r.Ok? ==> r.value == api(call).value
    ensures r.Err? ==> r.error == api(call).error
  {
    match api(call)
    case Returned(v) => Ok(v)
    case Raised(e) => Err(e)
  }
}
