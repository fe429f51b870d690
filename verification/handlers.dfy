/**
 * The generic entity handlers and tool dispatch (src/tool_handlers.py).
 * Every handler reads its arguments, makes its client calls and wraps the
 * outcome in a uniform envelope; exceptions raised inside a handler's `try`
 * become error envelopes, those raised outside it escape as `Raises`.
 */
module ToolHandlers {
  import opened Wrappers
  import opened Errors
  import opened Json
  import opened RecordApi
  import R = EntityRegistry
  import G = ToolGenerator
  import Query
  import Strings

  // ---------------------------------------------------------------------
  // Envelopes
  // ---------------------------------------------------------------------

  /** `_format_response` / `_format_error`, before JSON serialisation. A
      `recordId` of Null is Python's `record_id=None`. */
  datatype Envelope =
    | Success(operation: string, entity: string, data: Value, recordId: Value)
    | Failure(operation: string, entity: string, error: string, recordId: Value)

  /** What a handler or the dispatcher produced: an envelope, or an exception
      that escapes to the caller. */
  datatype Outcome = Returns(envelope: Envelope) | Raises(error: Error)

  /** The dict that is serialised: `success`, `operation` and `entity`
      always; `record_id` only when one was supplied; a success carries
      `data`, plus `count` exactly when the data is a list; an error carries
      `error` and never `count` or `data`. */
  function Render(env: Envelope): (r: Object)
    ensures "success" in r && r["success"] == Bool(env.Success?)
    ensures "operation" in r && r["operation"] == Str(env.operation)
    ensures "entity" in r && r["entity"] == Str(env.entity)
    ensures "record_id" in r <==> env.recordId != Null
    ensures "record_id" in r ==> r["record_id"] == env.recordId
    ensures "data" in r <==> env.Success?
    ensures env.Success? ==> r["data"] == env.data
    ensures "count" in r <==> env.Success? && env.data.Arr?
    ensures "count" in r ==> r["count"] == Int(|env.data.items|)
    ensures "error" in r <==> env.Failure?
    ensures env.Failure? ==> r["error"] == Str(env.error)
    ensures forall k :: k in r ==> k in {"success", "operation", "entity", "record_id", "count", "data", "error"}
  {
    var base := map["success" := Bool(env.Success?), "operation" := Str(env.operation), "entity" := Str(env.entity)];
    var withId := if env.recordId != Null then base["record_id" := env.recordId] else base;
    match env
    case Success(_, _, data, _) =>
      (if data.Arr? then withId["count" := Int(|data.items|)] else withId)["data" := data]
    case Failure(_, _, err, _) => withId["error" := Str(err)]
  }

  /** An awaited call inside a handler's `try`: its value becomes the success
      envelope, its exception the error envelope with `str(e)`. */
  function Respond(op: string, e: R.EntityConfig, reply: Reply, rid: Value): Envelope {
    match reply
    case Returned(v) => Success(op, e.key, v, rid)
    case Raised(err) => Failure(op, e.key, Text(err), rid)
  }

  /** A handler that makes exactly one call and reports it. */
  function PassThrough(op: string, e: R.EntityConfig, call: Call, rid: Value, api: Api): (r: (seq<Call>, Outcome))
    ensures r.0 == [call] && r.1.Returns?
    ensures api(call).Returned? ==> r.1.envelope == Success(op, e.key, api(call).value, rid)
    ensures api(call).Raised? ==> r.1.envelope == Failure(op, e.key, Text(api(call).error), rid)
  {
    ([call], Returns(Respond(op, e, api(call), rid)))
  }

  // ---------------------------------------------------------------------
  // Empty-value stripping
  // ---------------------------------------------------------------------

  /** `_strip_empty_values`: keep the entries whose value is neither None nor "". */
  function StripEmpty(d: Object): (r: Object)
    ensures forall k :: k in r <==> k in d && d[k] != Null && d[k] != Str("")
    ensures forall k :: k in r ==> r[k] == d[k]
  {
    map k | k in d && d[k] != Null && d[k] != Str("") :: d[k]
  }

  /** Stripping twice is stripping once, and 0, False and [] survive. */
  lemma StripEmptyIdempotent(d: Object)
    ensures StripEmpty(StripEmpty(d)) == StripEmpty(d)
    ensures forall k :: k in d && d[k] in {Int(0), Bool(false), Arr([])} ==> k in StripEmpty(d)
  {
  }

  /** `_strip_empty_values(arguments.get("data", {}))`, evaluated before the
      handler's `try`: anything but a dict has no `.items()`. */
  function DataArgument(args: Object): (r: Result<Object, Error>)
    ensures r.Ok? <==> Lookup(args, "data", Obj(map[])).Obj?
    ensures r.Ok? ==> r.value == StripEmpty(Lookup(args, "data", Obj(map[])).fields)
    ensures r.Err? ==> r.error == Builtin(AttributeError)
  {
    match Lookup(args, "data", Obj(map[]))
    case Obj(d) => Ok(StripEmpty(d))
    case _ => Err(Builtin(AttributeError))
  }

  // ---------------------------------------------------------------------
  // Search
  // ---------------------------------------------------------------------

  /** The per-field query of a free-text search. */
  function FieldQuery(field: string, sanitized: string): string {
    field + "~='" + sanitized + "'"
  }

  function FieldSearch(path: string, field: string, sanitized: string, fields: Value): Call {
    SearchRecords(path, Str(FieldQuery(field, sanitized)), fields)
  }

  /** `for record in v`, as far as a list of records is concerned: a list
      yields its items; an empty dict or string yields nothing; a non-empty
      one yields strings, which have no `.get`; other values cannot be iterated. */
  function Records(v: Value): (r: Result<seq<Value>, Error>)
    ensures v.Arr? ==> r == Ok(v.items)
  {
    match v
    case Arr(xs) => Ok(xs)
    case Obj(m) => if |m| == 0 then Ok([]) else Err(Builtin(AttributeError))
    case Str(s) => if |s| == 0 then Ok([]) else Err(Builtin(AttributeError))
    case _ => Err(Builtin(TypeError))
  }

  /** `record.get("id")` as a key of the `seen_ids` set. */
  function IdKey(rec: Value): Value {
    if rec.Obj? then HashKey(Lookup(rec.fields, "id", Null)) else Null
  }

  /** A record the merge loop accepts: a dict whose id can be hashed. */
  predicate Mergeable(rec: Value) {
    rec.Obj? && Hashable(Lookup(rec.fields, "id", Null))
  }

  /** The merge loop over one field's records, with the set of ids seen and
      the results so far. */
  function Dedup(records: seq<Value>, seen: set<Value>, acc: seq<Value>): (r: Result<(set<Value>, seq<Value>), Error>)
    ensures r.Ok? <==> forall i :: 0 <= i < |records| ==> Mergeable(records[i])
  {
    if |records| == 0 then Ok((seen, acc))
    else
      var rec := records[0];
      if !rec.Obj? then Err(Builtin(AttributeError))
      else if !Hashable(Lookup(rec.fields, "id", Null)) then Err(Builtin(TypeError))
      else
        var rest := if IdKey(rec) in seen then Dedup(records[1..], seen, acc)
                    else Dedup(records[1..], seen + {IdKey(rec)}, acc + [rec]);
        assert forall i :: 1 <= i < |records| ==> records[i] == records[1..][i - 1];
        rest
  }

  /** One field's reply merged into the results: its error, or the records
      it yields passed through the merge loop. */
  function MergeReply(reply: Reply, seen: set<Value>, acc: seq<Value>): (r: Result<(set<Value>, seq<Value>), Error>)
    ensures r.Ok? ==> reply.Returned? && Records(reply.value).Ok?
    ensures r.Ok? ==> r == Dedup(Records(reply.value).value, seen, acc)
  {
    match reply
    case Raised(err) => Err(err)
    case Returned(v) =>
      match Records(v)
      case Err(err) => Err(err)
      case Ok(recs) => Dedup(recs, seen, acc)
  }

  /** The text branch of `handle_search`: one search per text field, in
      declared order, each merged into the results as it arrives. */
  function MergeSearch(path: string, tfs: seq<string>, sanitized: string, fields: Value, api: Api,
                       seen: set<Value>, acc: seq<Value>): (r: (seq<Call>, Result<seq<Value>, Error>))
    ensures |r.0| <= |tfs| && (|tfs| > 0 ==> |r.0| > 0)
    ensures forall i :: 0 <= i < |r.0| ==> r.0[i] == FieldSearch(path, tfs[i], sanitized, fields)
    ensures r.1.Ok? ==> |r.0| == |tfs|
    decreases |tfs|
  {
    if |tfs| == 0 then ([], Ok(acc))
    else
      var call := FieldSearch(path, tfs[0], sanitized, fields);
      match MergeReply(api(call), seen, acc)
      case Err(err) => ([call], Err(err))
      case Ok((seen', acc')) =>
        var rest := MergeSearch(path, tfs[1..], sanitized, fields, api, seen', acc');
        ([call] + rest.0, rest.1)
  }

  /** One call whose value is the search result. */
  function Single(call: Call, api: Api): (seq<Call>, Result<Value, Error>) {
    ([call], match api(call) case Returned(v) => Ok(v) case Raised(err) => Err(err))
  }

  /** The routing of `handle_search`: a structured query goes out as it is; a
      non-blank free-text query against an entity with text-search fields is
      sanitised and searched field by field; anything else goes out as it is.
      A query that is not a string fails the structure test. */
  function SearchResults(e: R.EntityConfig, query: Value, fields: Value, api: Api): (seq<Call>, Result<Value, Error>) {
    if !query.Str? then ([], Err(Builtin(TypeError)))
    else if Query.IsStructured(query.s) then Single(SearchRecords(e.apiPath, query, fields), api)
    else if |e.textSearchFields| > 0 && |Strings.Strip(query.s)| > 0 then
      var (calls, merged) := MergeSearch(e.apiPath, e.textSearchFields, Query.Sanitize(query.s), fields, api, {}, []);
      (calls, if merged.Ok? then Ok(Arr(merged.value)) else Err(merged.error))
    else Single(SearchRecords(e.apiPath, query, fields), api)
  }

  /** `results[:n]` with Python's slice bounds: a negative bound counts from the end. */
  function SlicePrefix<T>(xs: seq<T>, n: int): (r: seq<T>)
    ensures n >= 0 ==> r == xs[..if n < |xs| then n else |xs|]
    ensures n < 0 ==> r == xs[..if |xs| + n > 0 then |xs| + n else 0]
  {
    if n >= 0 then xs[..if n < |xs| then n else |xs|]
    else xs[..if |xs| + n > 0 then |xs| + n else 0]
  }

  /** The client-side truncation: only a list longer than the limit is cut;
      the limit compares as an int, bools included. */
  function Truncate(results: Value, limit: Value): Result<Value, Error> {
    if !results.Arr? then Ok(results)
    else match AsInt(limit)
      case None => Err(Builtin(TypeError))
      case Some(n) => Ok(if |results.items| > n then Arr(SlicePrefix(results.items, n)) else results)
  }

  /** `handle_search`. */
  function HandleSearch(e: R.EntityConfig, args: Object, api: Api): (r: (seq<Call>, Outcome))
    ensures r.1.Returns? && r.1.envelope.operation == "search" && r.1.envelope.entity == e.key
    ensures r.1.envelope.recordId == Null
  {
    var query := Lookup(args, "query", Str(""));
    var fields := Lookup(args, "fields", StrList(e.defaultSearchFields));
    var limit := Lookup(args, "limit", Int(G.DefaultLimit));
    var (calls, results) := SearchResults(e, query, fields, api);
    var env := match results
      case Err(err) => Failure("search", e.key, Text(err), Null)
      case Ok(v) =>
        match Truncate(v, limit)
        case Err(err) => Failure("search", e.key, Text(err), Null)
        case Ok(t) => Success("search", e.key, t, Null);
    (calls, Returns(env))
  }

  // ---------------------------------------------------------------------
  // Merge: reference definition and proof
  // ---------------------------------------------------------------------

  /** The ids of a sequence of records. */
  function IdKeys(recs: seq<Value>): set<Value> {
    if |recs| == 0 then {} else IdKeys(recs[..|recs| - 1]) + {IdKey(recs[|recs| - 1])}
  }

  lemma {:induction false} IdKeysAppend(a: seq<Value>, b: seq<Value>)
    ensures IdKeys(a + b) == IdKeys(a) + IdKeys(b)
    decreases |b|
  {
    if |b| == 0 {
      assert a + b == a;
    } else {
      var init := b[..|b| - 1];
      IdKeysAppend(a, init);
      assert (a + b)[..|a + b| - 1] == a + init;
    }
  }

  lemma {:induction false} IdKeyIn(recs: seq<Value>, i: int)
    requires 0 <= i < |recs|
    ensures IdKey(recs[i]) in IdKeys(recs)
    decreases |recs|
  {
    if i < |recs| - 1 {
      var init := recs[..|recs| - 1];
      IdKeyIn(init, i);
      assert init[i] == recs[i];
    }
  }

  /** Reference merge: each record kept exactly when no earlier record has
      its id, in their original order. */
  function KeepFirsts(recs: seq<Value>): seq<Value> {
    if |recs| == 0 then []
    else
      var init := recs[..|recs| - 1];
      var last := recs[|recs| - 1];
      KeepFirsts(init) + (if IdKey(last) in IdKeys(init) then [] else [last])
  }

  /** The merge keeps every id of its input and no other. */
  lemma {:induction false} KeepFirstsIds(recs: seq<Value>)
    ensures IdKeys(KeepFirsts(recs)) == IdKeys(recs)
  {
    if |recs| > 0 {
      var init := recs[..|recs| - 1];
      var last := recs[|recs| - 1];
      KeepFirstsIds(init);
      var tail := if IdKey(last) in IdKeys(init) then [] else [last];
      IdKeysAppend(KeepFirsts(init), tail);
      assert [last][..0] == [];
    }
  }

  /** The merge keeps one record per id. */
  lemma {:induction false} KeepFirstsDistinct(recs: seq<Value>)
    ensures forall i, j :: 0 <= i < j < |KeepFirsts(recs)| ==> IdKey(KeepFirsts(recs)[i]) != IdKey(KeepFirsts(recs)[j])
  {
    if |recs| > 0 {
      var init := recs[..|recs| - 1];
      var last := recs[|recs| - 1];
      KeepFirstsDistinct(init);
      KeepFirstsIds(init);
      var k := KeepFirsts(init);
      var out := KeepFirsts(recs);
      forall i, j | 0 <= i < j < |out| ensures IdKey(out[i]) != IdKey(out[j]) {
        if j >= |k| {
          IdKeyIn(k, i);
          assert out[i] == k[i];
        } else {
          assert out[i] == k[i] && out[j] == k[j];
        }
      }
    }
  }

  /** The merge keeps only records of its input. */
  lemma {:induction false} KeepFirstsSubset(recs: seq<Value>)
    ensures forall x :: x in KeepFirsts(recs) ==> x in recs
  {
    if |recs| > 0 {
      var init := recs[..|recs| - 1];
      KeepFirstsSubset(init);
      assert recs == init + [recs[|recs| - 1]];
    }
  }

  /** One step of the merge: appending a record to the processed prefix. */
  lemma KeepFirstsSnoc(prefix: seq<Value>, rec: Value)
    ensures IdKey(rec) in IdKeys(prefix) ==>
      KeepFirsts(prefix + [rec]) == KeepFirsts(prefix) && IdKeys(prefix + [rec]) == IdKeys(prefix)
    ensures IdKey(rec) !in IdKeys(prefix) ==>
      KeepFirsts(prefix + [rec]) == KeepFirsts(prefix) + [rec] && IdKeys(prefix + [rec]) == IdKeys(prefix) + {IdKey(rec)}
  {
    var p := prefix + [rec];
    assert p[..|p| - 1] == prefix;
    assert KeepFirsts(prefix) + [] == KeepFirsts(prefix);
  }

  /** One record of the merge loop. */
  lemma DedupStep(records: seq<Value>, seen: set<Value>, acc: seq<Value>)
    requires |records| > 0 && Mergeable(records[0])
    ensures IdKey(records[0]) in seen ==> Dedup(records, seen, acc) == Dedup(records[1..], seen, acc)
    ensures IdKey(records[0]) !in seen ==>
      Dedup(records, seen, acc) == Dedup(records[1..], seen + {IdKey(records[0])}, acc + [records[0]])
  {
  }

  /** The merge loop with the set of seen ids and the results of a processed
      prefix computes the reference merge of the prefix extended by the records. */
  lemma {:induction false} DedupIsKeepFirsts(records: seq<Value>, prefix: seq<Value>)
    requires forall i :: 0 <= i < |records| ==> Mergeable(records[i])
    ensures Dedup(records, IdKeys(prefix), KeepFirsts(prefix)) ==
      Ok((IdKeys(prefix + records), KeepFirsts(prefix + records)))
    decreases |records|
  {
    if |records| == 0 {
      assert prefix + records == prefix;
    } else {
      var rec := records[0];
      var rest := records[1..];
      DedupStep(records, IdKeys(prefix), KeepFirsts(prefix));
      KeepFirstsSnoc(prefix, rec);
      assert forall i :: 0 <= i < |rest| ==> rest[i] == records[i + 1];
      DedupIsKeepFirsts(rest, prefix + [rec]);
      assert prefix + [rec] + rest == prefix + records;
    }
  }

  /** The records the replies to a sequence of calls yielded, in call order. */
  function RepliedRecords(calls: seq<Call>, api: Api): seq<Value> {
    if |calls| == 0 then []
    else
      var reply := api(calls[0]);
      var here := if reply.Returned? && Records(reply.value).Ok? then Records(reply.value).value else [];
      here + RepliedRecords(calls[1..], api)
  }

  /** One field of the field-by-field search, when the whole search completes. */
  lemma MergeSearchStep(path: string, tfs: seq<string>, sanitized: string, fields: Value, api: Api,
                        seen: set<Value>, acc: seq<Value>)
    requires |tfs| > 0
    ensures var call := FieldSearch(path, tfs[0], sanitized, fields);
      var r := MergeSearch(path, tfs, sanitized, fields, api, seen, acc);
      r.1.Ok? ==>
        && MergeReply(api(call), seen, acc).Ok?
        && var d := MergeReply(api(call), seen, acc).value;
           var rest := MergeSearch(path, tfs[1..], sanitized, fields, api, d.0, d.1);
           r == ([call] + rest.0, rest.1)
  {
  }

  lemma RepliedRecordsCons(call: Call, calls: seq<Call>, api: Api)
    requires api(call).Returned? && Records(api(call).value).Ok?
    ensures RepliedRecords([call] + calls, api) == Records(api(call).value).value + RepliedRecords(calls, api)
  {
    assert ([call] + calls)[1..] == calls;
  }

  /** The records of one reply, followed by those of the later calls. */
  lemma MergeKeepsFirstsStep(prefix: seq<Value>, call: Call, recs: seq<Value>, later: seq<Call>, api: Api)
    requires api(call).Returned? && Records(api(call).value) == Ok(recs)
    ensures prefix + recs + RepliedRecords(later, api) == prefix + RepliedRecords([call] + later, api)
  {
    RepliedRecordsCons(call, later, api);
  }

  /** The field-by-field search, when it completes, returns the reference
      merge of everything the field searches returned. */
  lemma {:induction false} MergeSearchKeepsFirsts(path: string, tfs: seq<string>, sanitized: string, fields: Value,
                                                  api: Api, prefix: seq<Value>)
    ensures var r := MergeSearch(path, tfs, sanitized, fields, api, IdKeys(prefix), KeepFirsts(prefix));
      r.1.Ok? ==> r.1.value == KeepFirsts(prefix + RepliedRecords(r.0, api))
    decreases |tfs|
  {
    var r := MergeSearch(path, tfs, sanitized, fields, api, IdKeys(prefix), KeepFirsts(prefix));
    if |tfs| == 0 {
      assert prefix + [] == prefix;
    } else if r.1.Ok? {
      var call := FieldSearch(path, tfs[0], sanitized, fields);
      MergeSearchStep(path, tfs, sanitized, fields, api, IdKeys(prefix), KeepFirsts(prefix));
      var recs := Records(api(call).value).value;
      DedupIsKeepFirsts(recs, prefix);
      MergeSearchKeepsFirsts(path, tfs[1..], sanitized, fields, api, prefix + recs);
      var rest := MergeSearch(path, tfs[1..], sanitized, fields, api, IdKeys(prefix + recs), KeepFirsts(prefix + recs));
      MergeKeepsFirstsStep(prefix, call, recs, rest.0, api);
    }
  }

  // ---------------------------------------------------------------------
  // Search properties
  // ---------------------------------------------------------------------

  /** The envelope `handle_search` answers with after the single search
      `call`: the reply cut to `limit` as data, or the error text of the
      search or of the cut. */
  predicate AnswersSingleSearch(e: R.EntityConfig, call: Call, limit: Value, api: Api, out: Outcome) {
    && (api(call).Raised? ==> out == Returns(Failure("search", e.key, Text(api(call).error), Null)))
    && (api(call).Returned? && Truncate(api(call).value, limit).Ok? ==>
          out == Returns(Success("search", e.key, Truncate(api(call).value, limit).value, Null)))
    && (api(call).Returned? && Truncate(api(call).value, limit).Err? ==>
          out == Returns(Failure("search", e.key, Text(Truncate(api(call).value, limit).error), Null)))
  }

  /** A structured query is one search with the query unchanged, and its
      reply, cut to the limit, is the answer. */
  lemma SearchStructured(e: R.EntityConfig, args: Object, api: Api)
    requires Lookup(args, "query", Str("")).Str? && Query.IsStructured(Lookup(args, "query", Str("")).s)
    ensures HandleSearch(e, args, api).0 ==
      [SearchRecords(e.apiPath, Lookup(args, "query", Str("")), Lookup(args, "fields", StrList(e.defaultSearchFields)))]
    ensures AnswersSingleSearch(e,
      SearchRecords(e.apiPath, Lookup(args, "query", Str("")), Lookup(args, "fields", StrList(e.defaultSearchFields))),
      Lookup(args, "limit", Int(G.DefaultLimit)), api, HandleSearch(e, args, api).1)
  {
  }

  /** Free text against text-search fields: one search per field, in declared
      order, each `field~='<sanitised>'`; when the search succeeds every field
      was searched and the data is the merge, truncated. */
  lemma SearchFreeText(e: R.EntityConfig, args: Object, api: Api)
    requires var q := Lookup(args, "query", Str(""));
      q.Str? && !Query.IsStructured(q.s) && |e.textSearchFields| > 0 && |Strings.Strip(q.s)| > 0
    ensures var q := Lookup(args, "query", Str(""));
      var fields := Lookup(args, "fields", StrList(e.defaultSearchFields));
      var (calls, out) := HandleSearch(e, args, api);
      && 0 < |calls| <= |e.textSearchFields|
      && (forall i :: 0 <= i < |calls| ==>
            calls[i] == SearchRecords(e.apiPath, Str(e.textSearchFields[i] + "~='" + Query.Sanitize(q.s) + "'"), fields))
      && (out.envelope.Success? ==>
            && |calls| == |e.textSearchFields|
            && Truncate(Arr(KeepFirsts(RepliedRecords(calls, api))), Lookup(args, "limit", Int(50)))
               == Ok(out.envelope.data))
  {
    var q := Lookup(args, "query", Str(""));
    var fields := Lookup(args, "fields", StrList(e.defaultSearchFields));
    MergeSearchKeepsFirsts(e.apiPath, e.textSearchFields, Query.Sanitize(q.s), fields, api, []);
    assert IdKeys([]) == {};
    var r := MergeSearch(e.apiPath, e.textSearchFields, Query.Sanitize(q.s), fields, api, {}, []);
    assert [] + RepliedRecords(r.0, api) == RepliedRecords(r.0, api);
  }

  /** Any other query, blank free text included, is one search with the
      query unchanged, and its reply, cut to the limit, is the answer. */
  lemma SearchRawQuery(e: R.EntityConfig, args: Object, api: Api)
    requires var q := Lookup(args, "query", Str(""));
      q.Str? && !Query.IsStructured(q.s) && (|e.textSearchFields| == 0 || |Strings.Strip(q.s)| == 0)
    ensures HandleSearch(e, args, api).0 ==
      [SearchRecords(e.apiPath, Lookup(args, "query", Str("")), Lookup(args, "fields", StrList(e.defaultSearchFields)))]
    ensures AnswersSingleSearch(e,
      SearchRecords(e.apiPath, Lookup(args, "query", Str("")), Lookup(args, "fields", StrList(e.defaultSearchFields))),
      Lookup(args, "limit", Int(G.DefaultLimit)), api, HandleSearch(e, args, api).1)
  {
  }

  /** A blank query is always passed through unchanged. */
  lemma BlankQueryPassedThrough(e: R.EntityConfig, args: Object, api: Api)
    requires var q := Lookup(args, "query", Str("")); q.Str? && Strings.IsBlank(q.s) && !Query.IsStructured(q.s)
    ensures HandleSearch(e, args, api).0 ==
      [SearchRecords(e.apiPath, Lookup(args, "query", Str("")), Lookup(args, "fields", StrList(e.defaultSearchFields)))]
  {
    Strings.StripEmptyIffBlank(Lookup(args, "query", Str("")).s);
  }

  /** With a limit of at least 1 a list is cut to its first `min(len, limit)`
      records; anything else is left alone. */
  lemma TruncateWithinSchema(results: Value, n: int)
    requires n >= 1
    ensures Truncate(results, Int(n)).Ok?
    ensures !results.Arr? ==> Truncate(results, Int(n)).value == results
    ensures results.Arr? ==>
      var t := Truncate(results, Int(n)).value;
      && t.Arr? && |t.items| == (if |results.items| < n then |results.items| else n)
      && t.items == results.items[..|t.items|]
  {
  }

  /** Below the schema's minimum the slice misbehaves: a limit of 0 empties
      the list and a negative limit drops records from the end. */
  lemma TruncateBelowMinimum()
    ensures Truncate(Arr([Int(1), Int(2), Int(3)]), Int(0)) == Ok(Arr([]))
    ensures Truncate(Arr([Int(1), Int(2), Int(3)]), Int(-1)) == Ok(Arr([Int(1), Int(2)]))
  {
    assert [Int(1), Int(2), Int(3)][..2] == [Int(1), Int(2)];
  }

  // ---------------------------------------------------------------------
  // The other handlers
  // ---------------------------------------------------------------------

  function Arg(args: Object, k: string): Value {
    Lookup(args, k, Null)
  }

  function HandleGet(e: R.EntityConfig, args: Object, api: Api): (seq<Call>, Outcome) {
    PassThrough("get", e, GetRecord(e.apiPath, Arg(args, "record_id"), Arg(args, "fields")), Arg(args, "record_id"), api)
  }

  /** create, update and upsert strip the data before their `try`. */
  function WithData(args: Object, k: Object -> (seq<Call>, Outcome)): (r: (seq<Call>, Outcome))
    ensures DataArgument(args).Err? ==> r == ([], Raises(Builtin(AttributeError)))
    ensures DataArgument(args).Ok? ==> r == k(DataArgument(args).value)
  {
    match DataArgument(args)
    case Err(err) => ([], Raises(err))
    case Ok(data) => k(data)
  }

  function HandleCreate(e: R.EntityConfig, args: Object, api: Api): (seq<Call>, Outcome) {
    WithData(args, data => PassThrough("create", e, CreateRecord(e.apiPath, data), Null, api))
  }

  function HandleUpdate(e: R.EntityConfig, args: Object, api: Api): (seq<Call>, Outcome) {
    var rid := Arg(args, "record_id");
    WithData(args, data => PassThrough("update", e, UpdateRecord(e.apiPath, rid, data), rid, api))
  }

  function HandleDelete(e: R.EntityConfig, args: Object, api: Api): (seq<Call>, Outcome) {
    var rid := Arg(args, "record_id");
    var rule := Lookup(args, "delete_rule", Str(G.DefaultDeleteRule));
    PassThrough("delete", e, DeleteRecord(e.apiPath, rid, rule), rid, api)
  }

  function HandleUpsert(e: R.EntityConfig, args: Object, api: Api): (seq<Call>, Outcome) {
    var query := Lookup(args, "query", Str(""));
    WithData(args, data => PassThrough("upsert", e, UpsertRecord(e.apiPath, query, data), Null, api))
  }

  /** `base64.b64decode` applied to the argument: the decoded bytes, or the
      exception it raises for malformed input or a non-string. */
  type Base64Decoder = Value -> Result<Bytes, Error>

  function HandleAttachFile(e: R.EntityConfig, args: Object, api: Api, decode: Base64Decoder): (seq<Call>, Outcome) {
    var rid := Arg(args, "record_id");
    match decode(Lookup(args, "file_content_base64", Str("")))
    case Err(err) =>
      ([], Returns(Failure("attach_file", e.key, "Invalid base64 content: " + Text(err), rid)))
    case Ok(bytes) =>
      PassThrough("attach_file", e, AttachFile(e.apiPath, rid, Arg(args, "field"), Arg(args, "file_name"), bytes), rid, api)
  }

  function HandleRetrieveAttachment(e: R.EntityConfig, args: Object, api: Api): (seq<Call>, Outcome) {
    var rid := Arg(args, "record_id");
    var call := RetrieveAttachment(e.apiPath, rid, Arg(args, "field"), Lookup(args, "file_position", Int(0)));
    PassThrough("retrieve_attachment", e, call, rid, api)
  }

  function HandleRemoveAttachment(e: R.EntityConfig, args: Object, api: Api): (seq<Call>, Outcome) {
    var rid := Arg(args, "record_id");
    var call := RemoveAttachment(e.apiPath, rid, Arg(args, "field"), Lookup(args, "file_position", Int(0)));
    PassThrough("remove_attachment", e, call, rid, api)
  }

  function HandleAttachmentInfo(e: R.EntityConfig, args: Object, api: Api): (seq<Call>, Outcome) {
    var rid := Arg(args, "record_id");
    PassThrough("get_attachment_info", e, GetAttachmentInfo(e.apiPath, rid, Arg(args, "field")), rid, api)
  }

  function HandleActionButton(e: R.EntityConfig, args: Object, api: Api): (seq<Call>, Outcome) {
    var rid := Arg(args, "record_id");
    PassThrough("action_button", e, TriggerActionButton(e.apiPath, rid, Arg(args, "button_name")), rid, api)
  }

  function HandleEvaluateFormat(e: R.EntityConfig, args: Object, api: Api): (seq<Call>, Outcome) {
    var rid := Arg(args, "record_id");
    PassThrough("evaluate_format", e, EvaluateFormat(e.apiPath, rid, Arg(args, "formula")), rid, api)
  }

  // ---------------------------------------------------------------------
  // Dispatch
  // ---------------------------------------------------------------------

  /** `HANDLER_DISPATCH[action]` applied to the entity and arguments. */
  function Handle(a: G.Action, e: R.EntityConfig, args: Object, api: Api, decode: Base64Decoder): (seq<Call>, Outcome) {
    match a
    case Search => HandleSearch(e, args, api)
    case Get => HandleGet(e, args, api)
    case Create => HandleCreate(e, args, api)
    case Update => HandleUpdate(e, args, api)
    case Delete => HandleDelete(e, args, api)
    case Upsert => HandleUpsert(e, args, api)
    case AttachFile => HandleAttachFile(e, args, api, decode)
    case RetrieveAttachment => HandleRetrieveAttachment(e, args, api)
    case RemoveAttachment => HandleRemoveAttachment(e, args, api)
    case GetAttachmentInfo => HandleAttachmentInfo(e, args, api)
    case ActionButton => HandleActionButton(e, args, api)
    case EvaluateFormat => HandleEvaluateFormat(e, args, api)
  }

  /** Every handler reports under its own action's name and its entity's key,
      and makes at most one call unless it is the search. */
  lemma HandlerEnvelopes(a: G.Action, e: R.EntityConfig, args: Object, api: Api, decode: Base64Decoder)
    ensures var (calls, out) := Handle(a, e, args, api, decode);
      && (out.Returns? ==> out.envelope.operation == G.Name(a) && out.envelope.entity == e.key)
      && (a != G.Search ==> |calls| <= 1)
      && (out.Raises? ==> a in {G.Create, G.Update, G.Upsert} && calls == [] && out.error == Builtin(AttributeError))
  {
  }

  /** The pass-through handlers send exactly the call their arguments
      describe, and report its value or its error. */
  lemma GetPassesThrough(e: R.EntityConfig, args: Object, api: Api)
    ensures var call := GetRecord(e.apiPath, Arg(args, "record_id"), Arg(args, "fields"));
      HandleGet(e, args, api) == ([call], Returns(Respond("get", e, api(call), Arg(args, "record_id"))))
  {
  }

  /** create, update and upsert send the stripped data, or raise before any
      call when `data` is not a dict. */
  lemma WritesSendStrippedData(e: R.EntityConfig, args: Object, api: Api)
    ensures var d := Lookup(args, "data", Obj(map[]));
      && (!d.Obj? ==> HandleCreate(e, args, api) == ([], Raises(Builtin(AttributeError))))
      && (d.Obj? ==> HandleCreate(e, args, api).0 == [CreateRecord(e.apiPath, StripEmpty(d.fields))])
      && (d.Obj? ==> HandleUpdate(e, args, api).0 == [UpdateRecord(e.apiPath, Arg(args, "record_id"), StripEmpty(d.fields))])
      && (d.Obj? ==>
            HandleUpsert(e, args, api).0 == [UpsertRecord(e.apiPath, Lookup(args, "query", Str("")), StripEmpty(d.fields))])
  {
  }

  /** Delete defaults to the unlink-where-possible rule. */
  lemma DeleteDefaultRule(e: R.EntityConfig, args: Object, api: Api)
    requires "delete_rule" !in args
    ensures HandleDelete(e, args, api).0 ==
      [DeleteRecord(e.apiPath, Arg(args, "record_id"), Str("UNLINK_WHERE_POSSIBLE_OTHERWISE_DELETE"))]
  {
  }

  /** Malformed base64 is an error envelope and no call is made. */
  lemma AttachRejectsBadBase64(e: R.EntityConfig, args: Object, api: Api, decode: Base64Decoder)
    requires decode(Lookup(args, "file_content_base64", Str(""))).Err?
    ensures var (calls, out) := HandleAttachFile(e, args, api, decode);
      && calls == [] && out.Returns? && out.envelope.Failure?
      && Strings.IsPrefix("Invalid base64 content: ", out.envelope.error)
      && out.envelope.recordId == Arg(args, "record_id")
  {
  }

  /** `dispatch_tool_call` against a registry and a dispatch map. */
  function DispatchToolCall(reg: R.Table, dispatch: map<string, (string, string)>, name: string,
                            args: Object, api: Api, decode: Base64Decoder): (r: (seq<Call>, Outcome))
    ensures name !in dispatch ==> r == ([], Raises(Errors.Value("Unknown tool: " + name)))
    ensures name in dispatch && R.Lookup(reg, dispatch[name].0).Err? ==> r == ([], Raises(R.Lookup(reg, dispatch[name].0).error))
    ensures name in dispatch && R.Lookup(reg, dispatch[name].0).Ok? && G.ParseAction(dispatch[name].1).None? ==>
      r == ([], Raises(Errors.Value("Unknown action: " + dispatch[name].1)))
    ensures name in dispatch && R.Lookup(reg, dispatch[name].0).Ok? && G.ParseAction(dispatch[name].1).Some? ==>
      r == Handle(G.ParseAction(dispatch[name].1).value, R.Lookup(reg, dispatch[name].0).value, args, api, decode)
  {
    if name !in dispatch then ([], Raises(Errors.Value("Unknown tool: " + name)))
    else
      var (entityKey, action) := dispatch[name];
      match R.Lookup(reg, entityKey)
      case Err(err) => ([], Raises(err))
      case Ok(entity) =>
        match G.ParseAction(action)
        case None => ([], Raises(Errors.Value("Unknown action: " + action)))
        case Some(a) => Handle(a, entity, args, api, decode)
  }

  /** Over a well-formed registry, every generated tool reaches the handler
      of the action it was generated for, applied to the record it was
      generated from: never an unknown tool, entity or action. */
  lemma GeneratedToolsDispatch(reg: R.Table, i: int, args: Object, api: Api, decode: Base64Decoder)
    requires R.WellFormed(reg) && 0 <= i < |G.AllEntries(reg)|
    ensures var x := G.AllEntries(reg)[i];
      exists k :: G.GeneratedFrom(reg, k, x) &&
        DispatchToolCall(reg, G.GenerateTools(reg).1, x.tool.name, args, api, decode) == Handle(x.action, reg[k].1, args, api, decode)
  {
    var x := G.AllEntries(reg)[i];
    G.GenerateToolsDispatch(reg);
    G.EntriesFromRegistry(reg, i);
    var k :| G.GeneratedFrom(reg, k, x);
    R.LookupRecord(reg, k);
    G.ParseName(x.action);
    var dispatch := G.GenerateTools(reg).1;
    assert G.Dispatches(dispatch, x);
    assert x.tool.name in dispatch && dispatch[x.tool.name] == (reg[k].1.key, G.Name(x.action));
  }

  /** An unknown tool name raises before any call. */
  lemma UnknownToolRaises(reg: R.Table, dispatch: map<string, (string, string)>, name: string,
                          args: Object, api: Api, decode: Base64Decoder)
    requires name !in dispatch
    ensures DispatchToolCall(reg, dispatch, name, args, api, decode) == ([], Raises(Errors.Value("Unknown tool: " + name)))
  {
  }
}
