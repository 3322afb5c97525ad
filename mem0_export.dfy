/**
 * The export tool (mem0_mcp/tools/mem0_export.py): creating an export job
 * with a schema and filters, mapping the job's status when it is fetched,
 * and rendering a list of memories as CSV or Markdown.  The memory service's
 * export calls are parameters, and so is the CSV writer's text.
 */
module Mem0Export {
  import opened Values
  import opened BaseOperation
  import opened ToolFilters

  /** The export calls of the memory service client:
      `create_memory_export(schema, filters)` and
      `get_memory_export(export_id)`. */
  datatype ExportClient = ExportClient(create: (Value, Value) -> Result<Value>, get: Value -> Result<Value>)

  // ---------------------------------------------------------------------
  // create

  /** `_get_default_schema`. */
  const DefaultSchema: Value :=
    Dict(map["format" := Str("json"), "include_metadata" := Bool(true),
             "include_timestamps" := Bool(true), "flatten_structure" := Bool(false)])

  /** The export configuration: the schema (the default one when none is
      passed) and the built filters. */
  function ExportConfig(params: Params): Result<(Value, Value)>
  {
    var filters :- BuildFilters(params);
    Ok((GetOr(params, "schema", DefaultSchema), filters))
  }

  /** Without a schema the job is created with the default schema; the
      configuration fails only where building the filters does. */
  lemma DefaultSchemaUsed(params: Params)
    ensures ExportConfig(params).Ok? <==> BuildFilters(params).Ok?
    ensures ExportConfig(params).Ok? ==>
      && ExportConfig(params).value.1 == BuildFilters(params).value
      && ExportConfig(params).value.0 == (if "schema" in params then params["schema"] else DefaultSchema)
  {
  }

  /** `CreateExportOperation.execute`. */
  function CreateExport(client: ExportClient, ctx: OperationContext, params: Params): Params
  {
    if !HasClient(ctx) then ClientMissing
    else Answer(ctx, CreateOutcome(client, params))
  }

  /** The body of the `try` in `CreateExportOperation.execute`. */
  function CreateOutcome(client: ExportClient, params: Params): (r: Result<Params>)
    ensures r.Ok? ==> r.value.Keys == {"status", "data", "operation", "export_id", "message"}
    ensures r.Ok? ==> r.value["status"] == Str("success") && r.value["operation"] == Str("create")
  {
    var config :- ExportConfig(params);
    var result :- client.create(config.0, config.1);
    var id :- DictGet(result, "export_id", Null);
    Ok(map["status" := Str("success"), "data" := result, "operation" := Str("create"),
           "export_id" := id, "message" := Str("Export job created successfully")])
  }

  /** A created job reports the service's answer and the id in it; a failure
      anywhere (the filters, the call, an answer that is not a dict) goes
      through `handle_error`. */
  lemma CreateAnswers(client: ExportClient, ctx: OperationContext, params: Params)
    requires HasClient(ctx)
    ensures var config := ExportConfig(params);
      var r := CreateExport(client, ctx, params);
      && (config.Err? ==> r == HandleError(ctx, config.error))
      && (config.Ok? && client.create(config.value.0, config.value.1).Ok? ==>
            var result := client.create(config.value.0, config.value.1).value;
            && (result.Dict? ==> r["data"] == result && r["export_id"] == GetOr(result.entries, "export_id", Null))
            && (!result.Dict? ==> r == HandleError(ctx, NoGet(result))))
  {
  }

  // ---------------------------------------------------------------------
  // get

  /** The body of the `try` in `GetExportOperation.execute`. */
  function GetOutcome(client: ExportClient, params: Params): Result<Params>
  {
    var id :- if "export_id" in params then Ok(params["export_id"]) else Err(PyError("KeyError", "'export_id'"));
    var result :- client.get(id);
    var status :- DictGet(result, "status", Null);
    if status == Str("completed") then
      var data := GetOr(result.entries, "data", Null);
      var count :- PyLen(GetOr(result.entries, "data", List([])));
      Ok(map["status" := Str("success"), "data" := result, "operation" := Str("get"), "export_id" := id,
             "export_data" := data, "record_count" := Int(count)])
    else
      var shown := GetOr(result.entries, "status", Str("in progress"));
      Ok(map["status" := Str("pending"), "data" := result, "operation" := Str("get"), "export_id" := id,
             "message" := Str("Export job is " + PyStr(shown))])
  }

  /** `GetExportOperation.execute`. */
  function GetExport(client: ExportClient, ctx: OperationContext, params: Params): Params
  {
    if !HasClient(ctx) then ClientMissing
    else Answer(ctx, GetOutcome(client, params))
  }

  /** A fetched job is a success, counting its data, exactly when its status
      is `completed`, and pending otherwise, with the status (or `in
      progress`) in the message. */
  lemma GetStatusMapping(client: ExportClient, params: Params, job: map<string, Value>)
    requires "export_id" in params && client.get(params["export_id"]) == Ok(Dict(job))
    ensures var r := GetOutcome(client, params);
      var completed := GetOr(job, "status", Null) == Str("completed");
      var count := PyLen(GetOr(job, "data", List([])));
      && (r.Ok? <==> !completed || count.Ok?)
      && (completed && count.Ok? ==>
            r.value["status"] == Str("success") && r.value["record_count"] == Int(count.value)
            && r.value["export_data"] == GetOr(job, "data", Null))
      && (completed && count.Err? ==> r == Err(count.error))
      && (!completed ==>
            r.value["status"] == Str("pending")
            && r.value["message"] == Str("Export job is " + PyStr(GetOr(job, "status", Str("in progress")))))
      && (r.Ok? ==> r.value["export_id"] == params["export_id"] && r.value["data"] == Dict(job))
  {
  }

  // ---------------------------------------------------------------------
  // export_csv

  const DefaultColumns: seq<Value> := [Str("id"), Str("memory"), Str("user_id"), Str("created_at")]

  /** The first list or dict among the columns, which `writeheader` cannot
      use as a dict key. */
  function Unhashables(columns: seq<Value>): (r: Option<Value>)
    ensures r.None? <==> forall i :: 0 <= i < |columns| ==> !columns[i].List? && !columns[i].Dict?
    ensures r.Some? ==> r.value in columns && (r.value.List? || r.value.Dict?)
    decreases |columns|
  {
    if |columns| == 0 then None
    else if columns[0].List? || columns[0].Dict? then Some(columns[0])
    else Unhashables(columns[1..])
  }

  /** One row, `{col: memory.get(col, "") for col in columns}`, as its cells
      in column order; only the string columns can name a key. */
  function Row(memory: Value, columns: seq<Value>): Result<seq<Value>>
  {
    if |columns| == 0 then Ok([])
    else if !memory.Dict? then Err(NoGet(memory))
    else Ok(seq(|columns|, i requires 0 <= i < |columns| =>
                  if columns[i].Str? then GetOr(memory.entries, columns[i].s, Str("")) else Str("")))
  }

  /** The rows of all memories, in order; the first failing memory raises. */
  function Rows(memories: seq<Value>, columns: seq<Value>): Result<seq<seq<Value>>>
    decreases |memories|
  {
    if |memories| == 0 then Ok([])
    else
      var rows :- Rows(memories[..|memories| - 1], columns);
      var row :- Row(memories[|memories| - 1], columns);
      Ok(rows + [row])
  }

  /** The rows exist exactly when every memory is a dict or no column is
      asked for; then there is one row per memory, in order, and each cell
      is the memory's value for its column or an empty string. */
  lemma {:induction false} RowsExact(memories: seq<Value>, columns: seq<Value>)
    ensures Rows(memories, columns).Ok? <==> |columns| == 0 || forall i :: 0 <= i < |memories| ==> memories[i].Dict?
    ensures Rows(memories, columns).Ok? ==>
      var rows := Rows(memories, columns).value;
      && |rows| == |memories|
      && (forall i :: 0 <= i < |rows| ==> |rows[i]| == |columns|)
      && (forall i, c :: 0 <= i < |rows| && 0 <= c < |columns| ==>
            rows[i][c] == (if columns[c].Str? && columns[c].s in memories[i].entries then memories[i].entries[columns[c].s] else Str("")))
    decreases |memories|
  {
    if |memories| > 0 {
      var init := memories[..|memories| - 1];
      assert forall i :: 0 <= i < |init| ==> init[i] == memories[i];
      RowsExact(init, columns);
    }
  }

  /** The rows failure short-circuits: once a prefix raises, all of it does. */
  lemma {:induction false} RowsStop(memories: seq<Value>, columns: seq<Value>, n: nat)
    requires n <= |memories| && Rows(memories[..n], columns).Err?
    ensures Rows(memories, columns) == Rows(memories[..n], columns)
    decreases |memories|
  {
    if n < |memories| {
      assert memories[..|memories| - 1][..n] == memories[..n];
      RowsStop(memories[..|memories| - 1], columns, n);
    } else {
      assert memories[..n] == memories;
    }
  }

  /** The row loop of `CSVExportHandler.execute`. */
  method CollectRows(memories: seq<Value>, columns: seq<Value>) returns (r: Result<seq<seq<Value>>>)
    ensures r == Rows(memories, columns)
  {
    var rows: seq<seq<Value>> := [];
    var i := 0;
    while i < |memories|
      invariant 0 <= i <= |memories|
      invariant Rows(memories[..i], columns) == Ok(rows)
    {
      assert memories[..i + 1][..i] == memories[..i];
      var row := Row(memories[i], columns);
      if row.Err? {
        RowsStop(memories, columns, i + 1);
        return Err(row.error);
      }
      rows := rows + [row.value];
      i := i + 1;
    }
    assert memories[..i] == memories;
    r := Ok(rows);
  }

  /** The columns and rows the CSV writer is given. */
  function CsvTable(params: Params): Result<(seq<Value>, seq<seq<Value>>)>
  {
    var memories := GetOr(params, "memories", List([]));
    var columns := GetOr(params, "columns", List(DefaultColumns));
    if !columns.List? then Err(NotIterable(columns))
    else if Unhashables(columns.items).Some? then Err(Unhashable(Unhashables(columns.items).value))
    else if !memories.List? then Err(NotIterable(memories))
    else
      var rows :- Rows(memories.items, columns.items);
      Ok((columns.items, rows))
  }

  /** `CSVExportHandler.execute`; `render` is the text `csv.DictWriter`
      writes for a header and rows. */
  function CsvExport(params: Params, render: (seq<Value>, seq<seq<Value>>) -> string): Result<Params>
  {
    var table :- CsvTable(params);
    Ok(map["status" := Str("success"), "format" := Str("csv"), "content" := Str(render(table.0, table.1)),
           "row_count" := Int(|GetOr(params, "memories", List([])).items|)])
  }

  /** `row_count` is the number of memories, which is the number of rows
      written; without `columns` the columns are id, memory, user_id and
      created_at, and every memory must then be a dict. */
  lemma CsvCounts(params: Params, render: (seq<Value>, seq<seq<Value>>) -> string)
    ensures CsvExport(params, render).Ok? ==>
      && CsvTable(params).Ok?
      && CsvExport(params, render).value["row_count"] == Int(|CsvTable(params).value.1|)
      && GetOr(params, "memories", List([])).List?
      && |CsvTable(params).value.1| == |GetOr(params, "memories", List([])).items|
    ensures "columns" !in params && CsvTable(params).Ok? ==> CsvTable(params).value.0 == DefaultColumns
    ensures "columns" !in params && "memories" in params && params["memories"].List? ==>
      (CsvTable(params).Ok? <==> forall i :: 0 <= i < |params["memories"].items| ==> params["memories"].items[i].Dict?)
  {
    var memories := GetOr(params, "memories", List([]));
    var columns := GetOr(params, "columns", List(DefaultColumns));
    if memories.List? && columns.List? {
      RowsExact(memories.items, columns.items);
    }
  }

  // ---------------------------------------------------------------------
  // export_markdown

  const Header := "# Memory Export\n\n"

  /** `', '.join(...)`'s strings for a list: all of them, or the error for
      the first item that is not a string. */
  function StrItems(items: seq<Value>, at: nat): (r: Result<seq<string>>)
    ensures r.Ok? <==> forall i :: 0 <= i < |items| ==> items[i].Str?
    ensures r.Ok? ==> |r.value| == |items| && forall i :: 0 <= i < |items| ==> r.value[i] == items[i].s
    decreases |items|
  {
    if |items| == 0 then Ok([])
    else if !items[0].Str? then
      Err(PyError("TypeError", "sequence item " + NatToString(at) + ": expected str instance, " + TypeWord(items[0]) + " found"))
    else
      var rest :- StrItems(items[1..], at + 1);
      Ok([items[0].s] + rest)
  }

  /** `', '.join(categories)`: a list of strings, or a string's characters. */
  function JoinCategories(v: Value): Result<string>
  {
    match v
    case List(items) =>
      var parts :- StrItems(items, 0);
      Ok(Join(", ", parts))
    case Str(s) => Ok(Join(", ", seq(|s|, i requires 0 <= i < |s| => [s[i]])))
    case Dict(e) => if e == map[] then Ok("") else Err(PyError("TypeError", "dict categories are not modelled"))
    case _ => Err(PyError("TypeError", "can only join an iterable"))
  }

  /** A section's heading and text. */
  function Heading(memory: map<string, Value>): string
  {
    ("## Memory " + PyStr(GetOr(memory, "id", Str("Unknown"))) + "\n\n") + (PyStr(GetOr(memory, "memory", Str(""))) + "\n\n")
  }

  /** A section's metadata block. */
  function MetaBlock(memory: map<string, Value>): Result<string>
  {
    var categories :- JoinCategories(GetOr(memory, "categories", List([])));
    Ok("**Metadata:**\n" + "- User: " + PyStr(GetOr(memory, "user_id", Str("N/A"))) + "\n"
       + "- Created: " + PyStr(GetOr(memory, "created_at", Str("N/A"))) + "\n"
       + "- Categories: " + categories + "\n" + "\n---\n\n")
  }

  /** One memory's section. */
  function Section(memory: Value, withMeta: bool): Result<string>
  {
    if !memory.Dict? then Err(NoGet(memory))
    else if withMeta then
      var meta :- MetaBlock(memory.entries);
      Ok(Heading(memory.entries) + meta)
    else Ok(Heading(memory.entries))
  }

  /** The rendering of one memory, as a function. */
  function SectionOf(withMeta: bool): Value -> Result<string>
  {
    m => Section(m, withMeta)
  }

  /** The renderings of all items, concatenated in order; the first item
      that fails to render raises. */
  function Rendered(items: seq<Value>, render: Value -> Result<string>): Result<string>
    decreases |items|
  {
    if |items| == 0 then Ok("")
    else
      var init :- Rendered(items[..|items| - 1], render);
      var last :- render(items[|items| - 1]);
      Ok(init + last)
  }

  /** The Markdown document. */
  function MarkdownContent(memories: seq<Value>, withMeta: bool): Result<string>
  {
    var body :- Rendered(memories, SectionOf(withMeta));
    Ok(Header + body)
  }

  /** Each item's rendering, once every item renders. */
  function Outputs(items: seq<Value>, render: Value -> Result<string>): seq<string>
    requires forall i :: 0 <= i < |items| ==> render(items[i]).Ok?
    decreases |items|
  {
    if |items| == 0 then []
    else
      assert forall i :: 0 <= i < |items| - 1 ==> items[..|items| - 1][i] == items[i];
      Outputs(items[..|items| - 1], render) + [render(items[|items| - 1]).value]
  }

  /** Each memory's section text, once every section renders. */
  function Texts(memories: seq<Value>, withMeta: bool): seq<string>
    requires forall i :: 0 <= i < |memories| ==> Section(memories[i], withMeta).Ok?
  {
    Outputs(memories, SectionOf(withMeta))
  }

  /** A section is the memory's heading, followed by its metadata block
      exactly when metadata is included; it fails only for a memory that is
      not a dict or categories that cannot be joined. */
  lemma SectionShape(memory: Value, withMeta: bool)
    ensures Section(memory, withMeta).Ok? <==>
      memory.Dict? && (!withMeta || JoinCategories(GetOr(memory.entries, "categories", List([]))).Ok?)
    ensures Section(memory, withMeta).Ok? ==>
      Section(memory, withMeta).value == Heading(memory.entries) + (if withMeta then MetaBlock(memory.entries).value else "")
  {
  }

  /** The rendering succeeds exactly when every item renders. */
  lemma {:induction false} RenderedOk(items: seq<Value>, render: Value -> Result<string>)
    ensures Rendered(items, render).Ok? <==> forall i :: 0 <= i < |items| ==> render(items[i]).Ok?
    decreases |items|
  {
    if |items| > 0 {
      var init := items[..|items| - 1];
      assert forall i :: 0 <= i < |init| ==> init[i] == items[i];
      RenderedOk(init, render);
    }
  }

  /** The rendering is the items' renderings, one per item, in order. */
  lemma {:induction false} RenderedInOrder(items: seq<Value>, render: Value -> Result<string>)
    requires forall i :: 0 <= i < |items| ==> render(items[i]).Ok?
    ensures Rendered(items, render) == Ok(Concat(Outputs(items, render)))
    decreases |items|
  {
    if |items| > 0 {
      var init := items[..|items| - 1];
      assert forall i :: 0 <= i < |init| ==> init[i] == items[i];
      RenderedInOrder(init, render);
      ConcatSnoc(Outputs(init, render), render(items[|items| - 1]).value);
    }
  }

  /** Once a prefix raises, all of it does. */
  lemma {:induction false} RenderedStop(items: seq<Value>, render: Value -> Result<string>, n: nat)
    requires n <= |items| && Rendered(items[..n], render).Err?
    ensures Rendered(items, render) == Rendered(items[..n], render)
    decreases |items|
  {
    if n < |items| {
      assert items[..|items| - 1][..n] == items[..n];
      RenderedStop(items[..|items| - 1], render, n);
    } else {
      assert items[..n] == items;
    }
  }

  /** One pass of the content loop: one memory's section appended to the
      content, piece by piece. */
  method AppendSection(content: string, memory: Value, withMeta: bool) returns (r: Result<string>)
    ensures Section(memory, withMeta).Ok? ==> r == Ok(content + Section(memory, withMeta).value)
    ensures Section(memory, withMeta).Err? ==> r == Err(Section(memory, withMeta).error)
  {
    if !memory.Dict? {
      return Err(NoGet(memory));
    }
    var heading := "## Memory " + PyStr(GetOr(memory.entries, "id", Str("Unknown"))) + "\n\n";
    var text := PyStr(GetOr(memory.entries, "memory", Str(""))) + "\n\n";
    var out := content + heading;
    out := out + text;
    Assoc(content, heading, text);
    if withMeta {
      var categories := JoinCategories(GetOr(memory.entries, "categories", List([])));
      if categories.Err? {
        return Err(categories.error);
      }
      var meta := "**Metadata:**\n"
        + "- User: " + PyStr(GetOr(memory.entries, "user_id", Str("N/A"))) + "\n"
        + "- Created: " + PyStr(GetOr(memory.entries, "created_at", Str("N/A"))) + "\n"
        + "- Categories: " + categories.value + "\n"
        + "\n---\n\n";
      out := out + meta;
      Assoc(content, heading + text, meta);
    }
    r := Ok(out);
  }

  /** The document of one more memory: the section appended, or the
      section's error for the whole list. */
  lemma MarkdownStep(memories: seq<Value>, withMeta: bool, i: nat)
    requires i < |memories| && MarkdownContent(memories[..i], withMeta).Ok?
    ensures Section(memories[i], withMeta).Ok? ==>
      MarkdownContent(memories[..i + 1], withMeta) ==
        Ok(MarkdownContent(memories[..i], withMeta).value + Section(memories[i], withMeta).value)
    ensures Section(memories[i], withMeta).Err? ==>
      MarkdownContent(memories, withMeta) == Err(Section(memories[i], withMeta).error)
  {
    assert memories[..i + 1][..i] == memories[..i];
    var body := Rendered(memories[..i], SectionOf(withMeta)).value;
    assert SectionOf(withMeta)(memories[i]) == Section(memories[i], withMeta);
    if Section(memories[i], withMeta).Ok? {
      Assoc(Header, body, Section(memories[i], withMeta).value);
    } else {
      RenderedStop(memories, SectionOf(withMeta), i + 1);
    }
  }

  /** The content loop of `MarkdownExportHandler.execute`. */
  method RenderMarkdown(memories: seq<Value>, withMeta: bool) returns (r: Result<string>)
    ensures r == MarkdownContent(memories, withMeta)
  {
    var content := Header;
    assert Header + "" == Header;
    var i := 0;
    while i < |memories|
      invariant 0 <= i <= |memories|
      invariant MarkdownContent(memories[..i], withMeta) == Ok(content)
    {
      var next := AppendSection(content, memories[i], withMeta);
      MarkdownStep(memories, withMeta, i);
      if next.Err? {
        return next;
      }
      content := next.value;
      i := i + 1;
    }
    assert memories[..i] == memories;
    r := Ok(content);
  }

  /** `MarkdownExportHandler.execute`; metadata is included by default. */
  function MarkdownExport(params: Params): Result<Params>
  {
    var memories := GetOr(params, "memories", List([]));
    var withMeta := GetOr(params, "include_metadata", Bool(true));
    if !memories.List? then Err(NotIterable(memories))
    else
      var content :- MarkdownContent(memories.items, Truthy(withMeta));
      Ok(map["status" := Str("success"), "format" := Str("markdown"), "content" := Str(content),
             "memory_count" := Int(|memories.items|)])
  }

  /** The document is the header and then one section per memory, in order,
      and `memory_count` is the number of memories. */
  lemma MarkdownDocument(params: Params)
    requires "memories" in params && params["memories"].List?
    ensures var memories := params["memories"].items;
      var withMeta := Truthy(GetOr(params, "include_metadata", Bool(true)));
      var r := MarkdownExport(params);
      && (r.Ok? <==> forall i :: 0 <= i < |memories| ==> Section(memories[i], withMeta).Ok?)
      && (r.Ok? ==>
            && r.value["content"] == Str(Header + Concat(Texts(memories, withMeta)))
            && r.value["memory_count"] == Int(|memories|))
  {
    var memories := params["memories"].items;
    var withMeta := Truthy(GetOr(params, "include_metadata", Bool(true)));
    assert forall m :: SectionOf(withMeta)(m) == Section(m, withMeta);
    RenderedOk(memories, SectionOf(withMeta));
    if forall i :: 0 <= i < |memories| ==> Section(memories[i], withMeta).Ok? {
      RenderedInOrder(memories, SectionOf(withMeta));
    }
  }

  /** Leaving out `include_metadata` is the same as setting it. */
  lemma MarkdownDefault(params: Params)
    requires "include_metadata" !in params
    ensures MarkdownExport(params) == MarkdownExport(params["include_metadata" := Bool(true)])
  {
    var given := params["include_metadata" := Bool(true)];
    assert GetOr(given, "memories", List([])) == GetOr(params, "memories", List([]));
  }

  /** The declared parameters of `export_markdown`. */
  const MarkdownParameters: seq<ParameterDefinition> :=
    [ParameterDefinition("memories", ArrayType, "Memories to export", true, Null, [], None),
     ParameterDefinition("include_metadata", BooleanType, "Include metadata", false, Bool(true), [], None)]

  /** After validation `include_metadata` is always there, `True` unless the
      caller passed a valid value. */
  lemma MarkdownDefaultValidated(params: Params)
    requires "include_metadata" !in params
    ensures "include_metadata" in Validated(MarkdownParameters, params)
    ensures Validated(MarkdownParameters, params)["include_metadata"] == Bool(true)
  {
    assert Supplied(MarkdownParameters[1], params) == Bool(true);
    ValidatedEntry(MarkdownParameters, params, 1);
  }

  /** The declared parameters of `export_csv`. */
  const CsvParameters: seq<ParameterDefinition> :=
    [ParameterDefinition("memories", ArrayType, "Memories to export", true, Null, [], None),
     ParameterDefinition("columns", ArrayType, "Columns to include", false, Null, [], None)]

  /** The two format handlers have no `try`: an exception reaches
      `__call__`'s error payload. */
  const MarkdownHandler: Handler := Leaf(MarkdownParameters, NoHook, NoHook,
                                         (ctx: OperationContext, p: Params) => MarkdownExport(p))

  function CsvHandler(render: (seq<Value>, seq<seq<Value>>) -> string): Handler
  {
    Leaf(CsvParameters, NoHook, NoHook, (ctx: OperationContext, p: Params) => CsvExport(p, render))
  }
}
