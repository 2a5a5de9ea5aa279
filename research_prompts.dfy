/**
 * The researcher's prompt builders (researcher/construct_prompts.py): the
 * knowledge prompt listing fields, field types and operators; the two blog
 * prompts; and the hypothesis-to-template prompt.  Files are given as their
 * parsed contents, `truncate_text` and `json.dumps` as parameters.
 */
module ResearchPrompts {
  import opened Wrappers
  import opened Json
  import opened Text
  import opened Grouping
  import PromptFile
  import DatasetKeys
  import FieldTemplates

  const KNOWLEDGE_KEY := "inject_wq_knowledge"
  const HELPFUL_KEY := "check_if_blog_helpful"
  const BLOG_HYPOTHESIS_KEY := "blog_to_hypothesis"
  const TO_TEMPLATE_KEY := "hypothesis_to_template"

  const FIELDS_MARKER := "{{ fields_and_definitions }}"
  const OPERATORS_MARKER := "{{ operators_and_definitions }}"
  const FIELD_TYPES_MARKER := "{{ field_types }}"
  const OPERATOR_TYPES_MARKER := "{{ operator_types }}"
  const BLOG_MARKER := "{{ blog_post }}"
  const HYPOTHESES_MARKER := "{{ hypotheses }}"

  /** How many ids or operators a type line of the hypothesis prompt shows. */
  const MAX_EXAMPLES_PER_TYPE: nat := 10000

  /** A row of the operators CSV. */
  datatype OpRow = OpRow(name: string, definition: string, description: string, dtype: string)

  /** The operators CSV: its header and its rows. */
  datatype OpsTable = OpsTable(columns: set<string>, rows: seq<OpRow>)

  /** The field-type file: its entries, `key -> field ids`, in file order. */
  type TypeEntries = seq<(string, seq<string>)>

  // ---------------------------------------------------------------------
  // Shared pieces

  /** One line per element, in order. */
  function Lines<T>(xs: seq<T>, line: T -> string): (r: seq<string>)
    ensures |r| == |xs| && forall i :: 0 <= i < |xs| ==> r[i] == line(xs[i])
  {
    seq(|xs|, i requires 0 <= i < |xs| => line(xs[i]))
  }

  /** The `for ...: lines.append(f"...")` loops. */
  method RenderLines<T>(xs: seq<T>, line: T -> string) returns (lines: seq<string>)
    ensures lines == Lines(xs, line)
  {
    lines := [];
    for n := 0 to |xs|
      invariant |lines| == n && forall i :: 0 <= i < n ==> lines[i] == line(xs[i])
    {
      lines := lines + [line(xs[n])];
    }
  }

  /** The entries whose key passes `keep`, in order. */
  function Kept<V>(entries: seq<(string, V)>, keep: string -> bool): seq<(string, V)>
  {
    if entries == [] then []
    else
      var e := entries[|entries| - 1];
      Kept(entries[..|entries| - 1], keep) + (if keep(e.0) then [e] else [])
  }

  lemma KeptSnoc<V>(entries: seq<(string, V)>, e: (string, V), keep: string -> bool)
    ensures keep(e.0) ==> Kept(entries + [e], keep) == Kept(entries, keep) + [e]
    ensures !keep(e.0) ==> Kept(entries + [e], keep) == Kept(entries, keep)
  {
    assert (entries + [e])[..|entries|] == entries;
    assert Kept(entries, keep) + [] == Kept(entries, keep);
  }

  /** The filter loops: `filtered[key] = ids` for each entry that is not skipped. */
  method KeepEntries<V>(entries: seq<(string, V)>, keep: string -> bool) returns (d: ODict<string, V>)
    ensures d == FromPairs(Kept(entries, keep))
  {
    d := Empty();
    for n := 0 to |entries|
      invariant d == FromPairs(Kept(entries[..n], keep))
    {
      var e := entries[n];
      assert entries[..n + 1] == entries[..n] + [e];
      KeptSnoc(entries[..n], e, keep);
      if keep(e.0) {
        FromPairsSnoc(Kept(entries[..n], keep), e);
        d := Assign(d, e.0, e.1);
      }
    }
    assert entries[..|entries|] == entries;
  }

  /** A filtered dict holds a kept key's value from the unfiltered one, and no other key. */
  lemma {:induction false} KeptLookup<V>(entries: seq<(string, V)>, keep: string -> bool, k: string)
    ensures Grouping.Find(FromPairs(Kept(entries, keep)), k)
         == if keep(k) then Grouping.Find(FromPairs(entries), k) else None
  {
    if entries != [] {
      var front := entries[..|entries| - 1];
      var e := entries[|entries| - 1];
      assert entries == front + [e];
      KeptSnoc(front, e, keep);
      KeptLookup(front, keep, k);
      FromPairsSnoc(front, e);
      if keep(e.0) {
        FromPairsSnoc(Kept(front, keep), e);
      }
    }
  }

  // ---------------------------------------------------------------------
  // The knowledge prompt (`build_wq_knowledge_prompt`)

  /** `not (enabled_datasets and name not in enabled_datasets)`. */
  predicate Enabled(enabled: seq<Value>, name: string)
  {
    enabled == [] || Str(name) in enabled
  }

  /** A field file that is loaded: enabled, not zero bytes, and readable. */
  predicate KnowledgeLoads(enabled: seq<Value>, f: FieldTemplates.CsvFile)
  {
    Enabled(enabled, f.stem) && f.size != 0 && f.content.Some?
  }

  /** The rows of `fields_df`. */
  function KnowledgeFields(enabled: seq<Value>, files: seq<FieldTemplates.CsvFile>): seq<FieldTemplates.Field>
  {
    if files == [] then []
    else
      var f := files[|files| - 1];
      KnowledgeFields(enabled, files[..|files| - 1])
      + (if KnowledgeLoads(enabled, f) then FieldTemplates.Tagged(f.content.value.rows, f.stem) else [])
  }

  predicate AnyLoaded(enabled: seq<Value>, files: seq<FieldTemplates.CsvFile>)
  {
    exists i :: 0 <= i < |files| && KnowledgeLoads(enabled, files[i])
  }

  /** The loaded rows, or the ValueError raised when no file loads. */
  function KnowledgeFrame(enabled: seq<Value>, files: seq<FieldTemplates.CsvFile>): Result<seq<FieldTemplates.Field>>
  {
    if AnyLoaded(enabled, files) then Ok(KnowledgeFields(enabled, files)) else Err("ValueError")
  }

  lemma KnowledgeStep(enabled: seq<Value>, files: seq<FieldTemplates.CsvFile>, f: FieldTemplates.CsvFile)
    ensures KnowledgeFields(enabled, files + [f])
         == KnowledgeFields(enabled, files)
            + (if KnowledgeLoads(enabled, f) then FieldTemplates.Tagged(f.content.value.rows, f.stem) else [])
    ensures AnyLoaded(enabled, files + [f]) <==> AnyLoaded(enabled, files) || KnowledgeLoads(enabled, f)
  {
    var fs := files + [f];
    assert fs[..|files|] == files && fs[|files|] == f;
    if AnyLoaded(enabled, files) {
      var i :| 0 <= i < |files| && KnowledgeLoads(enabled, files[i]);
      assert fs[i] == files[i];
    }
    if AnyLoaded(enabled, fs) && !KnowledgeLoads(enabled, f) {
      var i :| 0 <= i < |fs| && KnowledgeLoads(enabled, fs[i]);
      assert i < |files| && files[i] == fs[i];
    }
  }

  /** The loop over the fields directory appending each loaded frame. */
  method LoadKnowledgeFields(enabled: seq<Value>, files: seq<FieldTemplates.CsvFile>)
    returns (r: Result<seq<FieldTemplates.Field>>)
    ensures r == KnowledgeFrame(enabled, files)
  {
    var fields: seq<FieldTemplates.Field> := [];
    var any := false;
    for n := 0 to |files|
      invariant fields == KnowledgeFields(enabled, files[..n])
      invariant any <==> AnyLoaded(enabled, files[..n])
    {
      var f := files[n];
      assert files[..n + 1] == files[..n] + [f];
      KnowledgeStep(enabled, files[..n], f);
      if KnowledgeLoads(enabled, f) {
        fields := fields + FieldTemplates.Tagged(f.content.value.rows, f.stem);
        any := true;
      }
    }
    assert files[..|files|] == files;
    if !any {
      return Err("ValueError");
    }
    r := Ok(fields);
  }

  /** Every listed field comes from an enabled dataset. */
  lemma {:induction false} KnowledgeFieldsEnabled(enabled: seq<Value>, files: seq<FieldTemplates.CsvFile>, i: nat)
    requires i < |KnowledgeFields(enabled, files)|
    ensures Enabled(enabled, KnowledgeFields(enabled, files)[i].dataset)
  {
    var front := files[..|files| - 1];
    var f := files[|files| - 1];
    var a := KnowledgeFields(enabled, front);
    if i < |a| {
      KnowledgeFieldsEnabled(enabled, front, i);
    }
  }

  /** `f"- **{row['id']}** ({dtype}, {dataset}): {desc}"`. */
  function FieldLine(f: FieldTemplates.Field): string
  {
    "- **" + f.id + "** (" + f.dtype + ", " + f.dataset + "): " + f.description
  }

  /** A field-type key is kept when the dataset it names is enabled; a key naming none is dropped. */
  predicate KnowledgeKeep(enabled: seq<Value>, key: string)
  {
    match DatasetKeys.KnowledgeDataset(key)
    case None => false
    case Some(d) => Enabled(enabled, d)
  }

  function KnowledgeFilter(enabled: seq<Value>): string -> bool
  {
    key => KnowledgeKeep(enabled, key)
  }

  /** `f"- **{ftype}**: {', '.join(fields)}"`. */
  function FieldTypeLine(e: (string, seq<string>)): string
  {
    "- **" + e.0 + "**: " + Join(e.1, ", ")
  }

  const OPERATOR_COLUMNS: set<string> := {"name", "definition", "description", "type"}

  /** `f"- **{row['name']}**: {row['definition']} — {row['description']}"`. */
  function OperatorLine(r: OpRow): string
  {
    "- **" + r.name + "**: " + r.definition + " — " + r.description
  }

  /** Each operator's name under its type, every row. */
  function TypedOperators(rows: seq<OpRow>): (r: seq<(string, string)>)
    ensures |r| == |rows| && forall i :: 0 <= i < |rows| ==> r[i] == (rows[i].dtype, rows[i].name)
  {
    seq(|rows|, i requires 0 <= i < |rows| => (rows[i].dtype, rows[i].name))
  }

  /** `f"- **</{otype}/>**: {', '.join(ops)}"`. */
  function OperatorTypeLine(e: (string, seq<string>)): string
  {
    "- **</" + e.0 + "/>**: " + Join(e.1, ", ")
  }

  /** The four `.replace` calls, in order. */
  function FillKnowledge(t: string, fields: string, operators: string, fieldTypes: string, operatorTypes: string): string
  {
    ReplaceAll(ReplaceAll(ReplaceAll(ReplaceAll(t, FIELDS_MARKER, fields), OPERATORS_MARKER, operators),
                          FIELD_TYPES_MARKER, fieldTypes), OPERATOR_TYPES_MARKER, operatorTypes)
  }

  /** The field-type section: the kept entries, one line each. */
  function KnowledgeFieldTypes(enabled: seq<Value>, entries: TypeEntries): string
  {
    Join(Lines(FromPairs(Kept(entries, KnowledgeFilter(enabled))).entries, FieldTypeLine), "\n")
  }

  /** The operator-type section: operator names grouped by type in first-seen order. */
  function KnowledgeOperatorTypes(rows: seq<OpRow>): string
  {
    Join(Lines(Grouped(TypedOperators(rows)).entries, OperatorTypeLine), "\n")
  }

  /**
   * What `build_wq_knowledge_prompt` returns or raises, given the prompt
   * file, the enabled setting, the field files, the field-type file if it
   * exists, and the operators CSV.
   */
  function WqKnowledgePrompt(doc: Value, enabled: seq<Value>, files: seq<FieldTemplates.CsvFile>,
                             typeFile: Option<TypeEntries>, ops: OpsTable): Result<string>
  {
    match PromptFile.TemplateValue(doc, KNOWLEDGE_KEY)
    case Err(e) => Err(e)
    case Ok(tv) =>
      match KnowledgeFrame(enabled, files)
      case Err(e) => Err(e)
      case Ok(fields) =>
        if typeFile.None? then Err("FileNotFoundError")
        else if ops.rows != [] && !(OPERATOR_COLUMNS <= ops.columns) then Err("KeyError")
        else
          match PromptFile.TemplateText(tv)
          case Err(e) => Err(e)
          case Ok(t) =>
            Ok(FillKnowledge(t, Join(Lines(fields, FieldLine), "\n"), Join(Lines(ops.rows, OperatorLine), "\n"),
                             KnowledgeFieldTypes(enabled, typeFile.value), KnowledgeOperatorTypes(ops.rows)))
  }

  /** `build_wq_knowledge_prompt`, loop by loop. */
  method BuildWqKnowledgePrompt(doc: Value, enabled: seq<Value>, files: seq<FieldTemplates.CsvFile>,
                                typeFile: Option<TypeEntries>, ops: OpsTable) returns (r: Result<string>)
    ensures r == WqKnowledgePrompt(doc, enabled, files, typeFile, ops)
  {
    var template := PromptFile.TemplateValue(doc, KNOWLEDGE_KEY);
    if template.Err? {
      return Err(template.error);
    }
    var loaded := LoadKnowledgeFields(enabled, files);
    if loaded.Err? {
      return Err(loaded.error);
    }
    var fieldsInfo := RenderLines(loaded.value, FieldLine);
    if typeFile.None? {
      return Err("FileNotFoundError");
    }
    var filtered := KeepEntries(typeFile.value, KnowledgeFilter(enabled));
    var fieldTypes := RenderLines(filtered.entries, FieldTypeLine);
    if ops.rows != [] && !(OPERATOR_COLUMNS <= ops.columns) {
      return Err("KeyError");
    }
    var opsInfo := RenderLines(ops.rows, OperatorLine);
    var opTypes := GroupInOrder(TypedOperators(ops.rows));
    var opTypeLines := RenderLines(opTypes.entries, OperatorTypeLine);
    var text := PromptFile.TemplateText(template.value);
    if text.Err? {
      return Err(text.error);
    }
    r := Ok(FillKnowledge(text.value, Join(fieldsInfo, "\n"), Join(opsInfo, "\n"),
                          Join(fieldTypes, "\n"), Join(opTypeLines, "\n")));
  }

  /**
   * Once a truthy template is found, the prompt is refused for missing
   * field files, then a missing field-type file; a template that is not a
   * string fails only at the `.replace` after all of them.
   */
  lemma KnowledgeErrors(doc: Value, enabled: seq<Value>, files: seq<FieldTemplates.CsvFile>,
                        typeFile: Option<TypeEntries>, ops: OpsTable)
    requires PromptFile.TemplateValue(doc, KNOWLEDGE_KEY).Ok?
    ensures !AnyLoaded(enabled, files) ==> WqKnowledgePrompt(doc, enabled, files, typeFile, ops) == Err("ValueError")
    ensures AnyLoaded(enabled, files) && typeFile.None?
            ==> WqKnowledgePrompt(doc, enabled, files, typeFile, ops) == Err("FileNotFoundError")
    ensures AnyLoaded(enabled, files) && typeFile.Some? && OPERATOR_COLUMNS <= ops.columns
            ==> (WqKnowledgePrompt(doc, enabled, files, typeFile, ops).Ok?
                 <==> PromptFile.TemplateValue(doc, KNOWLEDGE_KEY).value.Str?)
    ensures AnyLoaded(enabled, files) && typeFile.Some? && OPERATOR_COLUMNS <= ops.columns
            && !PromptFile.TemplateValue(doc, KNOWLEDGE_KEY).value.Str?
            ==> WqKnowledgePrompt(doc, enabled, files, typeFile, ops) == Err("AttributeError")
  {
  }

  /** A key is kept exactly when the pattern matches it and its dataset is enabled. */
  lemma KnowledgeKeepMeaning(enabled: seq<Value>, key: string)
    ensures KnowledgeKeep(enabled, key)
        <==> exists i, e :: DatasetKeys.ColonMatch(key, DatasetKeys.IsWordOrHyphen, i, e)
                            && Enabled(enabled, key[i + 1..e])
  {
    match DatasetKeys.KnowledgeDataset(key)
    case None =>
      forall i, e | DatasetKeys.ColonMatch(key, DatasetKeys.IsWordOrHyphen, i, e)
        ensures false
      {
        DatasetKeys.KnowledgeDatasetMeaning(key, key[i + 1..e]);
      }
    case Some(d) =>
      DatasetKeys.KnowledgeDatasetMeaning(key, d);
      forall i, e | DatasetKeys.ColonMatch(key, DatasetKeys.IsWordOrHyphen, i, e)
        ensures key[i + 1..e] == d
      {
        DatasetKeys.KnowledgeDatasetMeaning(key, key[i + 1..e]);
      }
  }

  /** The kept field types hold the ids of the file, for exactly the kept keys. */
  lemma KnowledgeFieldTypesLookup(enabled: seq<Value>, entries: TypeEntries, key: string)
    ensures Grouping.Find(FromPairs(Kept(entries, KnowledgeFilter(enabled))), key)
         == if KnowledgeKeep(enabled, key) then Grouping.Find(FromPairs(entries), key) else None
  {
    KeptLookup(entries, KnowledgeFilter(enabled), key);
  }

  /** A key written by the field-type generator for an enabled dataset of word characters is kept. */
  lemma KnowledgeKeepsGeneratedKey(enabled: seq<Value>, name: string, dtype: string, dataset: string)
    requires dataset != [] && forall k :: 0 <= k < |dataset| ==> DatasetKeys.IsWordOrHyphen(dataset[k])
    requires Enabled(enabled, dataset)
    ensures KnowledgeKeep(enabled, FieldTemplates.MakeKey(name, dtype, dataset))
  {
    FieldTemplates.KnowledgeReadsDataset(name, dtype, dataset);
  }

  /** With no template markers, the knowledge prompt is the template itself. */
  lemma FillKnowledgeNoMarkers(t: string, fields: string, operators: string, fieldTypes: string, operatorTypes: string)
    requires !Contains(t, FIELDS_MARKER) && !Contains(t, OPERATORS_MARKER)
    requires !Contains(t, FIELD_TYPES_MARKER) && !Contains(t, OPERATOR_TYPES_MARKER)
    ensures FillKnowledge(t, fields, operators, fieldTypes, operatorTypes) == t
  {
    assert Text.Find(t, FIELDS_MARKER).None?;
    assert Text.Find(t, OPERATORS_MARKER).None?;
    assert Text.Find(t, FIELD_TYPES_MARKER).None?;
    assert Text.Find(t, OPERATOR_TYPES_MARKER).None?;
  }

  // ---------------------------------------------------------------------
  // The blog prompts (`build_check_if_blog_helpful`, `build_blog_to_hypothesis`)

  /** `f"{v}"`: a string as itself, anything else as `render` prints it. */
  function Show(v: Value, render: Value -> string): string
  {
    if v.Str? then v.s else render(v)
  }

  /** What `for c in post_comments` visits: list items, the characters of a string, the keys of a dict. */
  function CommentItems(v: Value, render: Value -> string): (r: Result<seq<string>>)
    ensures v.List? ==> r == Ok(Lines(v.items, (x: Value) => Show(x, render)))
    ensures v.Str? ==> r.Ok? && |r.value| == |v.s| && forall i :: 0 <= i < |v.s| ==> r.value[i] == [v.s[i]]
    ensures (v.Num? || v.Bool? || v.Null?) ==> r == Err("TypeError")
  {
    match v
    case List(items) => Ok(Lines(items, (x: Value) => Show(x, render)))
    case Str(s) => Ok(seq(|s|, i requires 0 <= i < |s| => [s[i]]))
    case Object(fs) => Ok(Keys(FromPairs(fs)))
    case _ => Err("TypeError")
  }

  /** `f"[{i}] {c}\n"`. */
  function CommentLine(i: nat, c: string): string
  {
    "[" + NatToString(i) + "] " + c + "\n"
  }

  /** The comment lines, numbered from 1. */
  function Numbered(cs: seq<string>): string
  {
    if cs == [] then [] else Numbered(cs[..|cs| - 1]) + CommentLine(|cs|, cs[|cs| - 1])
  }

  /** The four headed sections, up to and including `Comments:`. */
  function PostHeader(title: string, description: string, body: string): string
  {
    "Title: " + title + "\n\nDescription: " + description + "\n\nPost Body: " + body + "\n\nComments:\n"
  }

  /** `post_text`, or the error its construction raises. */
  function PostText(blog: Value, render: Value -> string): Result<string>
  {
    if !blog.Object? then Err("AttributeError")
    else
      var fs := blog.fields;
      var header := PostHeader(Show(GetOr(fs, "title", Str("")), render),
                               Show(GetOr(fs, "description", Str("")), render),
                               Show(GetOr(fs, "post_body", Str("")), render));
      var comments := Get(fs, "post_comments");
      if !Truthy(comments) then Ok(header)
      else
        match CommentItems(comments, render)
        case Err(e) => Err(e)
        case Ok(cs) => Ok(header + Numbered(cs))
  }

  /** The `post_text += f"[{i}] {c}\n"` loop. */
  method AppendComments(header: string, cs: seq<string>) returns (text: string)
    ensures text == header + Numbered(cs)
  {
    text := header;
    for n := 0 to |cs|
      invariant text == header + Numbered(cs[..n])
    {
      assert cs[..n + 1][..n] == cs[..n];
      text := text + CommentLine(n + 1, cs[n]);
    }
    assert cs[..|cs|] == cs;
  }

  /** A blog prompt under `key`: the template with the truncated post text filled in. */
  function BlogPrompt(doc: Value, key: string, blog: Value, render: Value -> string,
                      truncate: string -> string): Result<string>
  {
    match PromptFile.TemplateValue(doc, key)
    case Err(e) => Err(e)
    case Ok(tv) =>
      match PostText(blog, render)
      case Err(e) => Err(e)
      case Ok(post) =>
        match PromptFile.TemplateText(tv)
        case Err(e) => Err(e)
        case Ok(t) => Ok(ReplaceAll(t, BLOG_MARKER, truncate(post)))
  }

  /** The body both blog builders share. */
  method BuildBlogPrompt(doc: Value, key: string, blog: Value, render: Value -> string,
                         truncate: string -> string) returns (r: Result<string>)
    ensures r == BlogPrompt(doc, key, blog, render, truncate)
  {
    var template := PromptFile.TemplateValue(doc, key);
    if template.Err? {
      return Err(template.error);
    }
    if !blog.Object? {
      return Err("AttributeError");
    }
    var fs := blog.fields;
    var header := PostHeader(Show(GetOr(fs, "title", Str("")), render),
                             Show(GetOr(fs, "description", Str("")), render),
                             Show(GetOr(fs, "post_body", Str("")), render));
    var post := header;
    var comments := Get(fs, "post_comments");
    if Truthy(comments) {
      var items := CommentItems(comments, render);
      if items.Err? {
        return Err(items.error);
      }
      post := AppendComments(header, items.value);
    }
    var text := PromptFile.TemplateText(template.value);
    if text.Err? {
      return Err(text.error);
    }
    r := Ok(ReplaceAll(text.value, BLOG_MARKER, truncate(post)));
  }

  method BuildCheckIfBlogHelpful(doc: Value, blog: Value, render: Value -> string, truncate: string -> string)
    returns (r: Result<string>)
    ensures r == BlogPrompt(doc, HELPFUL_KEY, blog, render, truncate)
  {
    r := BuildBlogPrompt(doc, HELPFUL_KEY, blog, render, truncate);
  }

  method BuildBlogToHypothesis(doc: Value, blog: Value, render: Value -> string, truncate: string -> string)
    returns (r: Result<string>)
    ensures r == BlogPrompt(doc, BLOG_HYPOTHESIS_KEY, blog, render, truncate)
  {
    r := BuildBlogPrompt(doc, BLOG_HYPOTHESIS_KEY, blog, render, truncate);
  }

  lemma {:induction false} NumberedPrefix(cs: seq<string>, j: nat)
    requires j <= |cs|
    ensures Numbered(cs[..j]) <= Numbered(cs)
    decreases |cs|
  {
    if j < |cs| {
      var front := cs[..|cs| - 1];
      assert cs[..j] == front[..j];
      NumberedPrefix(front, j);
    } else {
      assert cs[..j] == cs;
    }
  }

  /**
   * Comment `i` appears as the line `[i+1] c` right after the lines of the
   * comments before it: the comments come numbered from 1, in order.
   */
  lemma CommentsInOrder(cs: seq<string>, i: nat)
    requires i < |cs|
    ensures OccursAt(Numbered(cs), CommentLine(i + 1, cs[i]), |Numbered(cs[..i])|)
  {
    var upto := cs[..i + 1];
    assert upto[..i] == cs[..i];
    assert Numbered(upto) == Numbered(cs[..i]) + CommentLine(i + 1, cs[i]);
    NumberedPrefix(cs, i + 1);
  }

  /** A post without truthy comments is the four headed sections alone. */
  lemma NoCommentsHeaderOnly(fs: seq<(string, Value)>, render: Value -> string)
    requires !Truthy(Get(fs, "post_comments"))
    ensures PostText(Object(fs), render)
         == Ok(PostHeader(Show(GetOr(fs, "title", Str("")), render),
                          Show(GetOr(fs, "description", Str("")), render),
                          Show(GetOr(fs, "post_body", Str("")), render)))
  {
  }

  /** A list of comments is numbered item by item after the header. */
  lemma ListedComments(fs: seq<(string, Value)>, render: Value -> string, items: seq<Value>)
    requires Get(fs, "post_comments") == List(items) && items != []
    ensures PostText(Object(fs), render)
         == Ok(PostHeader(Show(GetOr(fs, "title", Str("")), render),
                          Show(GetOr(fs, "description", Str("")), render),
                          Show(GetOr(fs, "post_body", Str("")), render))
               + Numbered(Lines(items, (x: Value) => Show(x, render))))
  {
  }

  /** A truthy number or boolean as the comments is not iterable. */
  lemma ScalarCommentsRaise(fs: seq<(string, Value)>, render: Value -> string)
    requires Truthy(Get(fs, "post_comments")) && (Get(fs, "post_comments").Num? || Get(fs, "post_comments").Bool?)
    ensures PostText(Object(fs), render) == Err("TypeError")
  {
  }

  /**
   * Once a truthy template is found, the post's own errors come first; a
   * template that is not a string fails only at the final `.replace`.
   */
  lemma BlogErrors(doc: Value, key: string, blog: Value, render: Value -> string, truncate: string -> string)
    requires PromptFile.TemplateValue(doc, key).Ok?
    ensures PostText(blog, render).Err? ==> BlogPrompt(doc, key, blog, render, truncate) == Err(PostText(blog, render).error)
    ensures PostText(blog, render).Ok? ==>
      (BlogPrompt(doc, key, blog, render, truncate).Ok? <==> PromptFile.TemplateValue(doc, key).value.Str?)
    ensures PostText(blog, render).Ok? && !PromptFile.TemplateValue(doc, key).value.Str?
            ==> BlogPrompt(doc, key, blog, render, truncate) == Err("AttributeError")
  {
  }

  // ---------------------------------------------------------------------
  // The hypothesis-to-template prompt (`build_hypothesis_to_template`)

  /** `[x.strip() for x in parts]`. */
  function StrippedParts(parts: seq<string>): (r: seq<string>)
    ensures |r| == |parts| && forall i :: 0 <= i < |parts| ==> r[i] == Strip(parts[i])
  {
    seq(|parts|, i requires 0 <= i < |parts| => Strip(parts[i]))
  }

  /** The non-blank names, in order. */
  function NonBlank(names: seq<string>): seq<Value>
  {
    if names == [] then []
    else (if names[0] != "" then [Str(names[0])] else []) + NonBlank(names[1..])
  }

  /** `enabled_datasets`: `None` for no filter. */
  function NormaliseEnabled(v: Value): Option<seq<Value>>
  {
    if !Truthy(v) then None
    else
      match v
      case Str(s) => Some(NonBlank(StrippedParts(Split(s, ","))))
      case List(items) => Some(items)
      case _ => None
  }

  /** A name is kept exactly when it is non-blank, and only names are kept. */
  lemma {:induction false} NonBlankMeaning(names: seq<string>, d: string)
    ensures Str(d) in NonBlank(names) <==> d != "" && d in names
    ensures forall x :: x in NonBlank(names) ==> x.Str? && x.s != "" && x.s in names
  {
    if names != [] {
      var head: seq<Value> := if names[0] != "" then [Str(names[0])] else [];
      assert NonBlank(names) == head + NonBlank(names[1..]);
      assert names == [names[0]] + names[1..];
      NonBlankMeaning(names[1..], d);
    }
  }

  /** The stripped parts name exactly the parts that strip to a non-blank name. */
  lemma StrippedPartsHas(parts: seq<string>, d: string)
    ensures Str(d) in NonBlank(StrippedParts(parts))
        <==> d != "" && exists i :: 0 <= i < |parts| && Strip(parts[i]) == d
  {
    var names := StrippedParts(parts);
    NonBlankMeaning(names, d);
    if d in names {
      var i :| 0 <= i < |names| && names[i] == d;
      assert Strip(parts[i]) == d;
    }
    if exists i :: 0 <= i < |parts| && Strip(parts[i]) == d {
      var i :| 0 <= i < |parts| && Strip(parts[i]) == d;
      assert names[i] == d;
    }
  }

  /** Every name from the stripped parts is a non-blank string that strips to itself. */
  lemma StrippedPartsClean(parts: seq<string>, x: Value)
    requires x in NonBlank(StrippedParts(parts))
    ensures x.Str? && x.s != "" && Strip(x.s) == x.s
  {
    var names := StrippedParts(parts);
    NonBlankMeaning(names, "");
    assert x.Str? && x.s in names;
    var i :| 0 <= i < |names| && names[i] == x.s;
    StripNoop(Strip(parts[i]));
  }

  /** A comma-separated setting enables exactly its non-blank stripped parts, each already stripped. */
  lemma EnabledFromString(s: string, d: string)
    requires s != ""
    ensures NormaliseEnabled(Str(s)) == Some(NonBlank(StrippedParts(Split(s, ","))))
    ensures Str(d) in NormaliseEnabled(Str(s)).value
        <==> d != "" && exists i :: 0 <= i < |Split(s, ",")| && Strip(Split(s, ",")[i]) == d
    ensures forall x :: x in NormaliseEnabled(Str(s)).value ==> x.Str? && x.s != "" && Strip(x.s) == x.s
  {
    var parts := Split(s, ",");
    assert NormaliseEnabled(Str(s)) == Some(NonBlank(StrippedParts(parts)));
    StrippedPartsHas(parts, d);
    forall x | x in NonBlank(StrippedParts(parts)) ensures x.Str? && x.s != "" && Strip(x.s) == x.s {
      StrippedPartsClean(parts, x);
    }
  }

  /** A falsy setting, or one neither a string nor a list, means no filter. */
  lemma NoFilterSettings(v: Value)
    ensures !Truthy(v) ==> NormaliseEnabled(v).None?
    ensures (v.Num? || v.Bool? || v.Object?) ==> NormaliseEnabled(v).None?
    ensures v.List? && v.items != [] ==> NormaliseEnabled(v) == Some(v.items)
  {
  }

  /**
   * `if enabled_datasets and dataset_name and dataset_name not in
   * enabled_datasets: continue`, with the dataset read by `extract`.
   */
  predicate HypothesisKeep(extract: string -> Option<string>, enabled: Option<seq<Value>>, key: string)
  {
    match extract(key)
    case None => true
    case Some(d) => !(enabled.Some? && enabled.value != [] && d != "" && Str(d) !in enabled.value)
  }

  function HypothesisFilter(extract: string -> Option<string>, enabled: Option<seq<Value>>): string -> bool
  {
    key => HypothesisKeep(extract, enabled, key)
  }

  /** The filter the prompt uses, with the dataset read by the expression as written. */
  function TemplateFilter(enabled: Option<seq<Value>>): string -> bool
  {
    HypothesisFilter(DatasetKeys.TemplateDatasetAsWritten, enabled)
  }

  /** The corrected filter, reading the dataset after the last colon as the comment intends. */
  function CorrectedTemplateFilter(enabled: Option<seq<Value>>): string -> bool
  {
    HypothesisFilter(DatasetKeys.TemplateDataset, enabled)
  }

  /** `"" if total <= MAX else f", ... (+{total - MAX} more)"`. */
  function Suffix(total: nat): string
  {
    if total <= MAX_EXAMPLES_PER_TYPE then "" else ", ... (+" + NatToString(total - MAX_EXAMPLES_PER_TYPE) + " more)"
  }

  function Take<T>(xs: seq<T>, n: nat): (r: seq<T>)
    ensures |r| == if |xs| <= n then |xs| else n
    ensures r <= xs
  {
    if |xs| <= n then xs else xs[..n]
  }

  /** `f"- **{heading}** ({total} {noun}): {', '.join(shown)}{suffix}"`. */
  function CountedLine(heading: string, noun: string, ids: seq<string>): string
  {
    "- **" + heading + "** (" + NatToString(|ids|) + " " + noun + "): "
    + Join(Take(ids, MAX_EXAMPLES_PER_TYPE), ", ") + Suffix(|ids|)
  }

  function CountedFieldTypeLine(e: (string, seq<string>)): string
  {
    CountedLine(e.0, "fields", e.1)
  }

  function CountedOperatorTypeLine(e: (string, seq<string>)): string
  {
    CountedLine("</" + e.0 + "/>", "ops", e.1)
  }

  /** `row.get("type", "Other")` and `row.get("name")`, with empty names skipped. */
  function NamedOperators(ops: OpsTable): seq<(string, string)>
    decreases |ops.rows|
  {
    if ops.rows == [] || "name" !in ops.columns then []
    else
      var front := OpsTable(ops.columns, ops.rows[..|ops.rows| - 1]);
      var r := ops.rows[|ops.rows| - 1];
      NamedOperators(front)
      + (if r.name != "" then [(if "type" in ops.columns then r.dtype else "Other", r.name)] else [])
  }

  /** The three `.replace` calls, in order. */
  function FillToTemplate(t: string, hypotheses: string, fieldTypes: string, operatorTypes: string): string
  {
    ReplaceAll(ReplaceAll(ReplaceAll(t, HYPOTHESES_MARKER, hypotheses), FIELD_TYPES_MARKER, fieldTypes),
               OPERATOR_TYPES_MARKER, operatorTypes)
  }

  function ToTemplateFieldTypes(enabled: Option<seq<Value>>, entries: TypeEntries): string
  {
    Join(Lines(FromPairs(Kept(entries, TemplateFilter(enabled))).entries, CountedFieldTypeLine), "\n")
  }

  function ToTemplateOperatorTypes(ops: OpsTable): string
  {
    Join(Lines(Grouped(NamedOperators(ops)).entries, CountedOperatorTypeLine), "\n")
  }

  /**
   * What `build_hypothesis_to_template` returns or raises, given the prompt
   * file, `json.dumps` of the hypotheses, the enabled setting, the
   * field-type file if it exists, and the operators CSV.
   */
  function HypothesisToTemplatePrompt(doc: Value, hypotheses: string, setting: Value,
                                      typeFile: Option<TypeEntries>, ops: OpsTable): Result<string>
  {
    match PromptFile.TemplateValue(doc, TO_TEMPLATE_KEY)
    case Err(e) => Err(e)
    case Ok(tv) =>
      if typeFile.None? then Err("FileNotFoundError")
      else
        match PromptFile.TemplateText(tv)
        case Err(e) => Err(e)
        case Ok(t) =>
          Ok(FillToTemplate(t, hypotheses, ToTemplateFieldTypes(NormaliseEnabled(setting), typeFile.value),
                            ToTemplateOperatorTypes(ops)))
  }

  lemma NamedSnoc(ops: OpsTable, r: OpRow)
    requires "name" in ops.columns
    ensures NamedOperators(OpsTable(ops.columns, ops.rows + [r]))
         == NamedOperators(ops) + (if r.name != "" then [(if "type" in ops.columns then r.dtype else "Other", r.name)] else [])
  {
    assert (ops.rows + [r])[..|ops.rows|] == ops.rows;
  }

  /** The operator loop: only rows with a non-empty name are grouped. */
  method GroupNamedOperators(ops: OpsTable) returns (groups: ODict<string, seq<string>>)
    ensures groups == Grouped(NamedOperators(ops))
  {
    var pairs: seq<(string, string)> := [];
    if "name" in ops.columns {
      for n := 0 to |ops.rows|
        invariant pairs == NamedOperators(OpsTable(ops.columns, ops.rows[..n]))
      {
        var r := ops.rows[n];
        assert ops.rows[..n + 1] == ops.rows[..n] + [r];
        NamedSnoc(OpsTable(ops.columns, ops.rows[..n]), r);
        if r.name != "" {
          var typ := if "type" in ops.columns then r.dtype else "Other";
          pairs := pairs + [(typ, r.name)];
        }
      }
      assert ops.rows[..|ops.rows|] == ops.rows;
    }
    groups := GroupInOrder(pairs);
  }

  /** `build_hypothesis_to_template`, loop by loop. */
  method BuildHypothesisToTemplate(doc: Value, hypotheses: string, setting: Value,
                                   typeFile: Option<TypeEntries>, ops: OpsTable) returns (r: Result<string>)
    ensures r == HypothesisToTemplatePrompt(doc, hypotheses, setting, typeFile, ops)
  {
    var template := PromptFile.TemplateValue(doc, TO_TEMPLATE_KEY);
    if template.Err? {
      return Err(template.error);
    }
    var enabled := NormaliseEnabled(setting);
    if typeFile.None? {
      return Err("FileNotFoundError");
    }
    var kept := KeepEntries(typeFile.value, TemplateFilter(enabled));
    var groups := GroupNamedOperators(ops);
    var fieldLines := RenderLines(kept.entries, CountedFieldTypeLine);
    var opLines := RenderLines(groups.entries, CountedOperatorTypeLine);
    var text := PromptFile.TemplateText(template.value);
    if text.Err? {
      return Err(text.error);
    }
    r := Ok(FillToTemplate(text.value, hypotheses, Join(fieldLines, "\n"), Join(opLines, "\n")));
  }

  /** A key from which no dataset can be read is kept whatever is enabled, by either filter. */
  lemma UnreadKeyKept(enabled: Option<seq<Value>>, key: string)
    ensures DatasetKeys.TemplateDatasetAsWritten(key).None? ==> TemplateFilter(enabled)(key)
    ensures DatasetKeys.TemplateDataset(key).None? ==> CorrectedTemplateFilter(enabled)(key)
  {
  }

  /**
   * With a filter in force, the prompt keeps a key exactly when no dataset
   * can be read from it or the leftmost match of `:([^/>]+)/>$` is enabled.
   */
  lemma TemplateKeepMeaning(enabled: seq<Value>, key: string)
    requires enabled != []
    ensures TemplateFilter(Some(enabled))(key)
        <==> DatasetKeys.TemplateDatasetAsWritten(key).None? || Str(DatasetKeys.TemplateDatasetAsWritten(key).value) in enabled
    ensures DatasetKeys.TemplateDatasetAsWritten(key).Some? ==>
      exists i, e :: DatasetKeys.LeftmostMatch(key, DatasetKeys.NotSlashOrGt, i, e)
                     && DatasetKeys.TemplateDatasetAsWritten(key).value == key[i + 1..e]
  {
    if DatasetKeys.TemplateDatasetAsWritten(key).Some? {
      DatasetKeys.TemplateDatasetAsWrittenSound(key);
    }
  }

  /** With a filter in force, the corrected filter keeps a key exactly when the text after its last colon is enabled or none can be read. */
  lemma CorrectedTemplateKeepMeaning(enabled: seq<Value>, key: string)
    requires enabled != []
    ensures CorrectedTemplateFilter(Some(enabled))(key)
        <==> DatasetKeys.TemplateDataset(key).None? || Str(DatasetKeys.TemplateDataset(key).value) in enabled
  {
    if DatasetKeys.TemplateDataset(key).Some? {
      DatasetKeys.TemplateDatasetMeaning(key, DatasetKeys.TemplateDataset(key).value);
    }
  }

  /**
   * As written, a key generated for `dtype` and `dataset` survives a filter
   * in force exactly when the two-part name `dtype:dataset` is enabled.
   */
  lemma AsWrittenKeepsTypedKey(enabled: seq<Value>, name: string, dtype: string, dataset: string)
    requires enabled != []
    requires forall k :: 0 <= k < |name| ==> DatasetKeys.NotSlashGtOrColon(name[k])
    requires forall k :: 0 <= k < |dtype| ==> DatasetKeys.NotSlashOrGt(dtype[k])
    requires forall k :: 0 <= k < |dataset| ==> DatasetKeys.NotSlashOrGt(dataset[k])
    ensures TemplateFilter(Some(enabled))(FieldTemplates.MakeKey(name, dtype, dataset))
        <==> Str(dtype + ":" + dataset) in enabled
  {
    FieldTemplates.TemplateAsWrittenReadsTypeAndDataset(name, dtype, dataset);
  }

  /** The kept field types hold the file's ids for exactly the kept keys. */
  lemma ToTemplateFieldTypesLookup(enabled: Option<seq<Value>>, entries: TypeEntries, key: string)
    ensures Grouping.Find(FromPairs(Kept(entries, TemplateFilter(enabled))), key)
         == if TemplateFilter(enabled)(key) then Grouping.Find(FromPairs(entries), key) else None
  {
    KeptLookup(entries, TemplateFilter(enabled), key);
  }

  /** With the corrected filter, a key written by the field-type generator for an enabled dataset is kept. */
  lemma ToTemplateKeepsGeneratedKey(enabled: Option<seq<Value>>, name: string, dtype: string, dataset: string)
    requires dataset != [] && forall k :: 0 <= k < |dataset| ==> DatasetKeys.NotSlashGtOrColon(dataset[k])
    requires enabled.Some? ==> Str(dataset) in enabled.value
    ensures CorrectedTemplateFilter(enabled)(FieldTemplates.MakeKey(name, dtype, dataset))
  {
    FieldTemplates.TemplateReadsDataset(name, dtype, dataset);
  }

  /**
   * With the expression as written, the filter reads `type:dataset` from a
   * generated key: enabling exactly its dataset drops the key, which the
   * corrected filter keeps.
   */
  lemma AsWrittenDropsGeneratedKey(name: string, dtype: string, dataset: string)
    requires dataset != [] && forall k :: 0 <= k < |dataset| ==> DatasetKeys.NotSlashGtOrColon(dataset[k])
    requires forall k :: 0 <= k < |name| ==> DatasetKeys.NotSlashGtOrColon(name[k])
    requires forall k :: 0 <= k < |dtype| ==> DatasetKeys.NotSlashOrGt(dtype[k])
    ensures !TemplateFilter(Some([Str(dataset)]))(FieldTemplates.MakeKey(name, dtype, dataset))
    ensures CorrectedTemplateFilter(Some([Str(dataset)]))(FieldTemplates.MakeKey(name, dtype, dataset))
  {
    forall k | 0 <= k < |dataset| ensures DatasetKeys.NotSlashOrGt(dataset[k]) {
      assert DatasetKeys.NotSlashGtOrColon(dataset[k]);
    }
    FieldTemplates.TemplateAsWrittenReadsTypeAndDataset(name, dtype, dataset);
    assert |dtype + ":" + dataset| > |dataset|;
    ToTemplateKeepsGeneratedKey(Some([Str(dataset)]), name, dtype, dataset);
  }

  /** The suffix is empty exactly when nothing is cut, and otherwise states how many ids are hidden. */
  lemma SuffixMeaning(ids: seq<string>)
    ensures Suffix(|ids|) == "" <==> |ids| <= MAX_EXAMPLES_PER_TYPE
    ensures |ids| > MAX_EXAMPLES_PER_TYPE ==>
      exists digits :: Suffix(|ids|) == ", ... (+" + digits + " more)"
        && (forall k :: 0 <= k < |digits| ==> IsDigit(digits[k]))
        && |Take(ids, MAX_EXAMPLES_PER_TYPE)| + ParseDigits(digits) == |ids|
  {
    if |ids| > MAX_EXAMPLES_PER_TYPE {
      NatToStringRoundTrip(|ids| - MAX_EXAMPLES_PER_TYPE);
    }
  }

  /** The line shows the first `MAX_EXAMPLES_PER_TYPE` ids, all of them when there are no more. */
  lemma CountedLineShows(heading: string, noun: string, ids: seq<string>)
    ensures Take(ids, MAX_EXAMPLES_PER_TYPE) == ids[..if |ids| <= MAX_EXAMPLES_PER_TYPE then |ids| else MAX_EXAMPLES_PER_TYPE]
    ensures |ids| <= MAX_EXAMPLES_PER_TYPE ==>
      CountedLine(heading, noun, ids) == "- **" + heading + "** (" + NatToString(|ids|) + " " + noun + "): " + Join(ids, ", ")
  {
    assert ids[..|ids|] == ids;
  }

  /** The operator types list exactly the named rows, grouped by type in first-seen order. */
  lemma NamedOperatorsGrouped(ops: OpsTable)
    ensures IsGrouping(NamedOperators(ops), Grouped(NamedOperators(ops)))
  {
    GroupedIsGrouping(NamedOperators(ops));
  }

  /** Every grouped operator has a non-empty name; without a `type` column all are filed under `Other`. */
  lemma {:induction false} NamedOperatorsNonEmpty(ops: OpsTable, i: nat)
    requires i < |NamedOperators(ops)|
    ensures NamedOperators(ops)[i].1 != ""
    ensures "type" !in ops.columns ==> NamedOperators(ops)[i].0 == "Other"
    decreases |ops.rows|
  {
    var front := OpsTable(ops.columns, ops.rows[..|ops.rows| - 1]);
    if i < |NamedOperators(front)| {
      NamedOperatorsNonEmpty(front, i);
    }
  }

  /** With no template markers, the prompt is the template itself. */
  lemma FillToTemplateNoMarkers(t: string, hypotheses: string, fieldTypes: string, operatorTypes: string)
    requires !Contains(t, HYPOTHESES_MARKER) && !Contains(t, FIELD_TYPES_MARKER) && !Contains(t, OPERATOR_TYPES_MARKER)
    ensures FillToTemplate(t, hypotheses, fieldTypes, operatorTypes) == t
  {
    assert Text.Find(t, HYPOTHESES_MARKER).None?;
    assert Text.Find(t, FIELD_TYPES_MARKER).None?;
    assert Text.Find(t, OPERATOR_TYPES_MARKER).None?;
  }

  /**
   * Once a truthy template is found, a missing field-type file is a
   * FileNotFoundError, string template or not; with the file present, a
   * template that is not a string fails at the `.replace`.
   */
  lemma ToTemplateNeedsTypeFile(doc: Value, hypotheses: string, setting: Value, ops: OpsTable, entries: TypeEntries)
    requires PromptFile.TemplateValue(doc, TO_TEMPLATE_KEY).Ok?
    ensures HypothesisToTemplatePrompt(doc, hypotheses, setting, None, ops) == Err("FileNotFoundError")
    ensures HypothesisToTemplatePrompt(doc, hypotheses, setting, Some(entries), ops).Ok?
        <==> PromptFile.TemplateValue(doc, TO_TEMPLATE_KEY).value.Str?
    ensures !PromptFile.TemplateValue(doc, TO_TEMPLATE_KEY).value.Str?
            ==> HypothesisToTemplatePrompt(doc, hypotheses, setting, Some(entries), ops) == Err("AttributeError")
  {
  }
}
