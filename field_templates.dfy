/**
 * The field-type generator (utils/template_field_gener.py): field CSVs are
 * loaded, split into (dataset, type) groups, each group is clustered, each
 * cluster is named by a language model, and the clusters are written out
 * under keys `</name:type:dataset/>`.
 *
 * The clustering itself (TF-IDF and HDBSCAN) and the language model are
 * oracles: the model receives the labels one per row and the raw reply.
 */
module FieldTemplates {
  import opened Wrappers
  import Text
  import opened Grouping
  import DatasetKeys
  import GenerateAlpha

  /** `min_cluster_size` of `cluster_fields_by_semantics_auto`. */
  const MIN_CLUSTER_SIZE: nat := 3
  /** The label noise (`-1`) is filed under. */
  const NOISE_LABEL: int := 9999
  /** Groups with fewer rows are skipped. */
  const MIN_GROUP_ROWS: nat := 3
  /** How many sample texts the naming prompt shows. */
  const SAMPLE_COUNT: nat := 5

  /** One row of a field CSV: its `id`, `description` and `type` cells. */
  datatype FieldRow = FieldRow(id: string, description: string, dtype: string)

  /** A CSV as `pd.read_csv` returns it: its header and its rows. */
  datatype Table = Table(columns: seq<string>, rows: seq<FieldRow>)

  /** A file of the fields directory: its stem, its byte size, and what reading it gave (`None`: it raised). */
  datatype CsvFile = CsvFile(stem: string, size: nat, content: Option<Table>)

  /** A row of the combined frame, with its file stem as `__dataset__`. */
  datatype Field = Field(id: string, description: string, dtype: string, dataset: string)

  /** The combined frame: the columns of all loaded files and their rows in file order. */
  datatype Frame = Frame(columns: set<string>, fields: seq<Field>)

  // ---------------------------------------------------------------------
  // Loading (`load_all_fields`)

  /** A file that is neither zero bytes, unreadable, nor without rows or columns. */
  predicate Usable(f: CsvFile)
  {
    f.size != 0 && f.content.Some? && f.content.value.rows != [] && f.content.value.columns != []
  }

  /** `df["__dataset__"] = file.stem`. */
  function Tagged(rows: seq<FieldRow>, stem: string): (r: seq<Field>)
    ensures |r| == |rows|
    ensures forall i :: 0 <= i < |rows| ==> r[i] == Field(rows[i].id, rows[i].description, rows[i].dtype, stem)
  {
    seq(|rows|, i requires 0 <= i < |rows| => Field(rows[i].id, rows[i].description, rows[i].dtype, stem))
  }

  /** The rows a file adds to the frame. */
  function FileFields(f: CsvFile): seq<Field>
  {
    if Usable(f) then Tagged(f.content.value.rows, f.stem) else []
  }

  /** `pd.concat(dfs)`: the rows of the usable files, file by file. */
  function LoadedFields(files: seq<CsvFile>): seq<Field>
  {
    if files == [] then [] else LoadedFields(files[..|files| - 1]) + FileFields(files[|files| - 1])
  }

  function ColumnSet(columns: seq<string>): set<string>
  {
    set c | c in columns
  }

  /** The columns of the concatenated frame: every column of a usable file. */
  function LoadedColumns(files: seq<CsvFile>): set<string>
  {
    if files == [] then {}
    else
      var last := files[|files| - 1];
      LoadedColumns(files[..|files| - 1]) + (if Usable(last) then ColumnSet(last.content.value.columns) else {})
  }

  predicate AnyUsable(files: seq<CsvFile>)
  {
    exists i :: 0 <= i < |files| && Usable(files[i])
  }

  /** What `load_all_fields` returns or raises. */
  function LoadAll(files: seq<CsvFile>): Result<Frame>
  {
    if AnyUsable(files) then Ok(Frame(LoadedColumns(files), LoadedFields(files))) else Err("RuntimeError")
  }

  /** The loop over the directory, appending each usable file's frame. */
  method LoadAllFields(files: seq<CsvFile>) returns (r: Result<Frame>)
    ensures r == LoadAll(files)
  {
    var fields: seq<Field> := [];
    var columns: set<string> := {};
    var any := false;
    for n := 0 to |files|
      invariant fields == LoadedFields(files[..n])
      invariant columns == LoadedColumns(files[..n])
      invariant any <==> AnyUsable(files[..n])
    {
      var f := files[n];
      assert files[..n + 1] == files[..n] + [f];
      LoadStep(files[..n], f);
      // A zero-byte file, a file pandas could not read, and an empty frame are all skipped.
      if Usable(f) {
        fields := fields + Tagged(f.content.value.rows, f.stem);
        columns := columns + ColumnSet(f.content.value.columns);
        any := true;
      }
    }
    assert files[..|files|] == files;
    if !any {
      return Err("RuntimeError");
    }
    r := Ok(Frame(columns, fields));
  }

  lemma LoadStep(files: seq<CsvFile>, f: CsvFile)
    ensures LoadedFields(files + [f]) == LoadedFields(files) + FileFields(f)
    ensures LoadedColumns(files + [f])
         == LoadedColumns(files) + (if Usable(f) then ColumnSet(f.content.value.columns) else {})
    ensures AnyUsable(files + [f]) <==> AnyUsable(files) || Usable(f)
  {
    var fs := files + [f];
    assert fs[..|files|] == files && fs[|files|] == f;
    if AnyUsable(files) {
      var i :| 0 <= i < |files| && Usable(files[i]);
      assert fs[i] == files[i];
    }
    if AnyUsable(fs) && !Usable(f) {
      var i :| 0 <= i < |fs| && Usable(fs[i]);
      assert i < |files| && files[i] == fs[i];
    }
  }

  /** The frame is the files' rows concatenated in directory order. */
  lemma {:induction false} LoadedFieldsAppend(a: seq<CsvFile>, b: seq<CsvFile>)
    ensures LoadedFields(a + b) == LoadedFields(a) + LoadedFields(b)
    decreases |b|
  {
    if b == [] {
      AppendEmpty(a);
      AppendEmpty(LoadedFields(a));
    } else {
      SplitLast(a, b);
      LoadedFieldsAppend(a, b[..|b| - 1]);
      AppendAssoc(LoadedFields(a), LoadedFields(b[..|b| - 1]), FileFields(b[|b| - 1]));
    }
  }

  lemma AppendEmpty<T>(a: seq<T>)
    ensures a + [] == a
  {
  }

  lemma AppendAssoc<T>(x: seq<T>, y: seq<T>, z: seq<T>)
    ensures (x + y) + z == x + (y + z)
  {
  }

  /** The last element of `a + b` is the last of `b`, and what precedes it is `a` then the rest of `b`. */
  lemma SplitLast<T>(a: seq<T>, b: seq<T>)
    requires b != []
    ensures (a + b)[..|a + b| - 1] == a + b[..|b| - 1]
    ensures (a + b)[|a + b| - 1] == b[|b| - 1]
  {
  }

  lemma LoadedSnoc(files: seq<CsvFile>, f: CsvFile)
    ensures LoadedFields(files + [f]) == LoadedFields(files) + FileFields(f)
  {
    assert (files + [f])[..|files|] == files;
  }

  /** A single file contributes its rows, tagged with its stem, or nothing when it is skipped. */
  lemma LoadedFieldsOne(f: CsvFile)
    ensures LoadedFields([f]) == if Usable(f) then Tagged(f.content.value.rows, f.stem) else []
  {
    assert [f][..0] == [];
  }

  /** Loading fails exactly when no file is usable. */
  lemma LoadAllFails(files: seq<CsvFile>)
    ensures LoadAll(files).Err? <==> forall i :: 0 <= i < |files| ==> !Usable(files[i])
  {
  }

  // ---------------------------------------------------------------------
  // Clustering (`cluster_fields_by_semantics_auto`)

  /** `if label == -1: label = 9999`. */
  function Remap(cluster: int): int
  {
    if cluster == -1 then NOISE_LABEL else cluster
  }

  /** Each id with its remapped label, in row order. */
  function Labelled(ids: seq<string>, labels: seq<int>): (r: seq<(int, string)>)
    requires |labels| == |ids|
    ensures |r| == |ids| && forall i :: 0 <= i < |ids| ==> r[i] == (Remap(labels[i]), ids[i])
  {
    seq(|ids|, i requires 0 <= i < |ids| => (Remap(labels[i]), ids[i]))
  }

  /**
   * One step of `sorted(clusters.items(), key=lambda x: -len(x[1]))`, a
   * stable sort: `x` goes after the clusters strictly larger than it.
   */
  function Insert(x: (int, seq<string>), s: seq<(int, seq<string>)>): (r: seq<(int, seq<string>)>)
    ensures |r| == |s| + 1
  {
    if s == [] || |s[0].1| <= |x.1| then [x] + s else [s[0]] + Insert(x, s[1..])
  }

  /** The clusters stably sorted by decreasing size. */
  function SortBySize(cs: seq<(int, seq<string>)>): (r: seq<(int, seq<string>)>)
    ensures |r| == |cs|
  {
    if cs == [] then [] else Insert(cs[0], SortBySize(cs[1..]))
  }

  /** Non-increasing sizes. */
  predicate SortedBySize(cs: seq<(int, seq<string>)>)
  {
    |cs| <= 1 || (|cs[0].1| >= |cs[1].1| && SortedBySize(cs[1..]))
  }

  /** The clusters of size `n`, in order. */
  function OfSize(cs: seq<(int, seq<string>)>, n: nat): seq<(int, seq<string>)>
  {
    if cs == [] then [] else (if |cs[0].1| == n then [cs[0]] else []) + OfSize(cs[1..], n)
  }

  /** The ids of the clusters, cluster after cluster. */
  function AllIds(cs: seq<(int, seq<string>)>): seq<string>
  {
    if cs == [] then [] else cs[0].1 + AllIds(cs[1..])
  }

  /** The clusters of a group's ids, with HDBSCAN's `labels` when there are enough rows to cluster. */
  function Clusters(ids: seq<string>, labels: seq<int>): seq<(int, seq<string>)>
    requires |ids| > MIN_CLUSTER_SIZE ==> |labels| == |ids|
  {
    if |ids| <= MIN_CLUSTER_SIZE then [(0, ids)]
    else SortBySize(Grouped(Labelled(ids, labels)).entries)
  }

  /** `cluster_fields_by_semantics_auto`, with the labels `fit_predict` returned. */
  method ClusterFieldsBySemantics(ids: seq<string>, labels: seq<int>) returns (clusters: seq<(int, seq<string>)>)
    requires |ids| > MIN_CLUSTER_SIZE ==> |labels| == |ids|
    ensures clusters == Clusters(ids, labels)
    ensures SortedBySize(clusters)
    ensures multiset(AllIds(clusters)) == multiset(ids)
  {
    if |ids| <= MIN_CLUSTER_SIZE {
      assert AllIds([(0, ids)]) == ids;
      return [(0, ids)];
    }
    var groups := GroupInOrder(Labelled(ids, labels));
    clusters := SortBySize(groups.entries);
    SortSorted(groups.entries);
    ClustersPartition(ids, labels);
  }

  lemma InsertHead(x: (int, seq<string>), s: seq<(int, seq<string>)>)
    ensures Insert(x, s)[0] == x || (s != [] && Insert(x, s)[0] == s[0])
  {
  }

  lemma {:induction false} InsertSorted(x: (int, seq<string>), s: seq<(int, seq<string>)>)
    requires SortedBySize(s)
    ensures SortedBySize(Insert(x, s))
  {
    if s != [] && |s[0].1| > |x.1| {
      var rest := s[1..];
      InsertSorted(x, rest);
      InsertHead(x, rest);
      assert Insert(x, s)[1..] == Insert(x, rest);
    }
  }

  /** The clusters come out largest first. */
  lemma {:induction false} SortSorted(cs: seq<(int, seq<string>)>)
    ensures SortedBySize(SortBySize(cs))
  {
    if cs != [] {
      SortSorted(cs[1..]);
      InsertSorted(cs[0], SortBySize(cs[1..]));
    }
  }

  /** Sorted in the recursive sense means every earlier cluster is at least as large as every later one. */
  lemma {:induction false} SortedPairwise(cs: seq<(int, seq<string>)>, i: nat, j: nat)
    requires SortedBySize(cs) && i < j < |cs|
    ensures |cs[i].1| >= |cs[j].1|
  {
    if i > 0 {
      SortedPairwise(cs[1..], i - 1, j - 1);
    } else if j > 1 {
      SortedPairwise(cs[1..], 0, j - 1);
    }
  }

  lemma {:induction false} InsertOfSize(x: (int, seq<string>), s: seq<(int, seq<string>)>, n: nat)
    ensures OfSize(Insert(x, s), n) == (if |x.1| == n then [x] else []) + OfSize(s, n)
  {
    if s == [] || |s[0].1| <= |x.1| {
      assert ([x] + s)[1..] == s;
    } else {
      var rest := s[1..];
      InsertOfSize(x, rest, n);
      assert ([s[0]] + Insert(x, rest))[1..] == Insert(x, rest);
    }
  }

  /** Stability: the clusters of each size keep the order they had. */
  lemma {:induction false} SortStable(cs: seq<(int, seq<string>)>, n: nat)
    ensures OfSize(SortBySize(cs), n) == OfSize(cs, n)
  {
    if cs != [] {
      SortStable(cs[1..], n);
      InsertOfSize(cs[0], SortBySize(cs[1..]), n);
    }
  }

  lemma {:induction false} InsertPermutes(x: (int, seq<string>), s: seq<(int, seq<string>)>)
    ensures multiset(Insert(x, s)) == multiset(s) + multiset{x}
    ensures multiset(AllIds(Insert(x, s))) == multiset(AllIds(s)) + multiset(x.1)
  {
    if s == [] || |s[0].1| <= |x.1| {
      assert ([x] + s)[1..] == s;
    } else {
      var rest := s[1..];
      InsertPermutes(x, rest);
      assert ([s[0]] + Insert(x, rest))[1..] == Insert(x, rest);
      assert s == [s[0]] + rest;
    }
  }

  /** Sorting reorders the clusters and loses or adds no id. */
  lemma {:induction false} SortPermutes(cs: seq<(int, seq<string>)>)
    ensures multiset(SortBySize(cs)) == multiset(cs)
    ensures multiset(AllIds(SortBySize(cs))) == multiset(AllIds(cs))
  {
    if cs != [] {
      SortPermutes(cs[1..]);
      InsertPermutes(cs[0], SortBySize(cs[1..]));
      assert cs == [cs[0]] + cs[1..];
    }
  }

  lemma SortKeepsMembers(cs: seq<(int, seq<string>)>, c: (int, seq<string>))
    requires c in SortBySize(cs)
    ensures c in cs
  {
    SortPermutes(cs);
    assert c in multiset(SortBySize(cs));
  }

  lemma {:induction false} AllIdsValues(cs: seq<(int, seq<string>)>)
    ensures AllIds(cs) == AllValues(cs)
  {
    if cs != [] {
      AllIdsValues(cs[1..]);
    }
  }

  /** Every id of the group lands in exactly one cluster. */
  lemma ClustersPartition(ids: seq<string>, labels: seq<int>)
    requires |ids| > MIN_CLUSTER_SIZE ==> |labels| == |ids|
    ensures multiset(AllIds(Clusters(ids, labels))) == multiset(ids)
  {
    if |ids| <= MIN_CLUSTER_SIZE {
      assert AllIds([(0, ids)]) == ids;
    } else {
      var pairs := Labelled(ids, labels);
      var g := Grouped(pairs);
      GroupedIsGrouping(pairs);
      GroupingPartition(pairs, g);
      SortPermutes(g.entries);
      AllIdsValues(g.entries);
      assert ValuesOfAll(pairs) == ids;
    }
  }

  /**
   * Each cluster holds exactly the ids whose remapped label is its label,
   * in row order, and no cluster is labelled `-1`.
   */
  lemma ClusterMembers(ids: seq<string>, labels: seq<int>, c: (int, seq<string>))
    requires |ids| > MIN_CLUSTER_SIZE && |labels| == |ids|
    requires c in Clusters(ids, labels)
    ensures c.1 == ValuesOf(Labelled(ids, labels), c.0)
    ensures c.0 != -1
    ensures exists i :: 0 <= i < |ids| && Remap(labels[i]) == c.0
  {
    var pairs := Labelled(ids, labels);
    var es := Grouped(pairs).entries;
    assert Clusters(ids, labels) == SortBySize(es);
    SortKeepsMembers(es, c);
    GroupedEntry(pairs, c);
    var j :| 0 <= j < |pairs| && pairs[j].0 == c.0;
    assert Remap(labels[j]) == c.0;
  }

  /** Few rows are not clustered: one cluster `0` with all ids in order. */
  lemma FewRowsOneCluster(ids: seq<string>, labels: seq<int>)
    requires |ids| <= MIN_CLUSTER_SIZE
    ensures Clusters(ids, labels) == [(0, ids)]
  {
  }

  // ---------------------------------------------------------------------
  // Naming (`name_cluster_with_llm`)

  /** `name.strip()`, then spaces and hyphens to `_`, then `.lower()`. */
  function Sanitise(raw: string): string
  {
    Text.Lower(Text.MapChar(Text.MapChar(Text.Strip(raw), ' ', '_'), '-', '_'))
  }

  /** The character mapping is exactly the two `str.replace` calls. */
  lemma SanitiseReplaces(raw: string)
    ensures Sanitise(raw) == Text.Lower(Text.ReplaceAll(Text.ReplaceAll(Text.Strip(raw), " ", "_"), "-", "_"))
  {
    var s := Text.Strip(raw);
    Text.ReplaceAllChar(s, ' ', '_');
    Text.ReplaceAllChar(Text.MapChar(s, ' ', '_'), '-', '_');
  }

  predicate IsUpper(c: char)
  {
    'A' <= c <= 'Z'
  }

  /** Text that sanitising leaves alone: no space, hyphen or upper-case letter, and no whitespace at either end. */
  predicate Sanitised(n: string)
  {
    && (forall k :: 0 <= k < |n| ==> n[k] != ' ' && n[k] != '-' && !IsUpper(n[k]))
    && (n == [] || (!Text.IsSpace(n[0]) && !Text.IsSpace(n[|n| - 1])))
  }

  /** The sanitised name keeps the stripped length and has no space, hyphen or upper-case letter. */
  lemma SanitiseClean(raw: string)
    ensures |Sanitise(raw)| == |Text.Strip(raw)|
    ensures Sanitised(Sanitise(raw))
  {
    var s := Text.Strip(raw);
    var a := Text.MapChar(s, ' ', '_');
    var b := Text.MapChar(a, '-', '_');
    forall k | 0 <= k < |b| ensures b[k] != ' ' && b[k] != '-' && (Text.IsSpace(b[k]) ==> Text.IsSpace(s[k])) {
      Text.MapCharAt(a, '-', '_', k);
      Text.MapCharAt(s, ' ', '_', k);
    }
    if b != [] {
      LowerKeepsSpace(b[0]);
      LowerKeepsSpace(b[|b| - 1]);
    }
  }

  /** Sanitising text already in that form changes nothing. */
  lemma SanitisedFixed(n: string)
    requires Sanitised(n)
    ensures Sanitise(n) == n
  {
    calc {
      Sanitise(n);
      Text.Lower(Text.MapChar(Text.MapChar(Text.Strip(n), ' ', '_'), '-', '_'));
      { Text.StripNoop(n); }
      Text.Lower(Text.MapChar(Text.MapChar(n, ' ', '_'), '-', '_'));
      { Text.MapCharFixed(n, ' ', '_'); }
      Text.Lower(Text.MapChar(n, '-', '_'));
      { Text.MapCharFixed(n, '-', '_'); }
      Text.Lower(n);
      { LowerFixed(n); }
      n;
    }
  }

  /** Sanitising twice changes nothing more. */
  lemma SanitiseIdempotent(raw: string)
    ensures Sanitise(Sanitise(raw)) == Sanitise(raw)
  {
    SanitiseClean(raw);
    SanitisedFixed(Sanitise(raw));
  }

  lemma LowerFixed(s: string)
    requires forall k :: 0 <= k < |s| ==> !IsUpper(s[k])
    ensures Text.Lower(s) == s
  {
  }

  lemma LowerKeepsSpace(c: char)
    ensures Text.IsSpace(Text.LowerChar(c)) <==> Text.IsSpace(c)
  {
  }


  // ---------------------------------------------------------------------
  // Keys (`generate_template_fields_v2`)

  /** `f"</{type_name}:{dtype}:{dataset}/>"`. */
  function MakeKey(name: string, dtype: string, dataset: string): string
  {
    GenerateAlpha.Tag(name + ":" + dtype + ":" + dataset)
  }

  /** The language model's answer for a (type, dataset) cluster, given its sample texts. */
  datatype Oracles = Oracles(
    labels: seq<Field> -> seq<int>,
    name: (string, string, seq<string>) -> string)

  /** `fit_predict` returns one label per row. */
  ghost predicate LabelsFit(o: Oracles)
  {
    forall rows :: |o.labels(rows)| == |rows|
  }

  function Ids(rows: seq<Field>): (r: seq<string>)
    ensures |r| == |rows| && forall i :: 0 <= i < |rows| ==> r[i] == rows[i].id
  {
    seq(|rows|, i requires 0 <= i < |rows| => rows[i].id)
  }

  /** `(sample_df["id"] + " " + sample_df["description"])` for the rows whose id is in the cluster. */
  function Samples(rows: seq<Field>, ids: seq<string>): seq<string>
  {
    if rows == [] then []
    else (if rows[0].id in ids then [rows[0].id + " " + rows[0].description] else []) + Samples(rows[1..], ids)
  }

  function Take<T>(xs: seq<T>, n: nat): seq<T>
  {
    if |xs| <= n then xs else xs[..n]
  }

  /** A (dataset, type) group of the frame: `((dataset, type), rows)`. */
  type Group = ((string, string), seq<Field>)

  /** The key a cluster of the group is written under. */
  function ClusterKey(g: Group, ids: seq<string>, o: Oracles): string
  {
    var ((dataset, dtype), rows) := g;
    MakeKey(Sanitise(o.name(dtype, dataset, Take(Samples(rows, ids), SAMPLE_COUNT))), dtype, dataset)
  }

  /** The assignments `all_mappings[key] = field_ids` for the clusters `cs` of group `g`, in order. */
  function ClusterPairs(g: Group, cs: seq<(int, seq<string>)>, o: Oracles): (r: seq<(string, seq<string>)>)
    ensures |r| == |cs|
    ensures forall i :: 0 <= i < |cs| ==> r[i] == (ClusterKey(g, cs[i].1, o), cs[i].1)
  {
    seq(|cs| , i requires 0 <= i < |cs| => (ClusterKey(g, cs[i].1, o), cs[i].1))
  }

  /** The clusters a group is split into. */
  function GroupClusters(g: Group, o: Oracles): seq<(int, seq<string>)>
    requires LabelsFit(o)
  {
    Clusters(Ids(g.1), o.labels(g.1))
  }

  /** The assignments a group makes: none for a small group. */
  function GroupPairs(g: Group, o: Oracles): seq<(string, seq<string>)>
    requires LabelsFit(o)
  {
    if |g.1| < MIN_GROUP_ROWS then [] else ClusterPairs(g, GroupClusters(g, o), o)
  }

  /** The assignments of all groups, in group order. */
  function AllPairs(gs: seq<Group>, o: Oracles): seq<(string, seq<string>)>
    requires LabelsFit(o)
  {
    if gs == [] then [] else AllPairs(gs[..|gs| - 1], o) + GroupPairs(gs[|gs| - 1], o)
  }

  /** Each row filed under its `(dataset, type)`. */
  function ByGroup(fields: seq<Field>): (r: seq<((string, string), Field)>)
    ensures |r| == |fields| && forall i :: 0 <= i < |fields| ==> r[i] == ((fields[i].dataset, fields[i].dtype), fields[i])
  {
    seq(|fields|, i requires 0 <= i < |fields| => ((fields[i].dataset, fields[i].dtype), fields[i]))
  }

  const REQUIRED_COLUMNS: set<string> := {"id", "description", "type"}

  /** What `generate_template_fields_v2` writes to the JSON file, or raises. */
  function TemplateFields(files: seq<CsvFile>, o: Oracles): Result<ODict<string, seq<string>>>
    requires LabelsFit(o)
  {
    match LoadAll(files)
    case Err(e) => Err(e)
    case Ok(frame) =>
      if !(REQUIRED_COLUMNS <= frame.columns) then Err("ValueError")
      else Ok(FromPairs(AllPairs(Grouped(ByGroup(frame.fields)).entries, o)))
  }

  /** The cluster loop of one group: `all_mappings[key] = field_ids` for each cluster in turn. */
  method WriteClusters(all: ODict<string, seq<string>>, g: Group, clusters: seq<(int, seq<string>)>, o: Oracles)
    returns (r: ODict<string, seq<string>>)
    ensures r == AssignAll(all, ClusterPairs(g, clusters, o))
  {
    r := all;
    for c := 0 to |clusters|
      invariant r == AssignAll(all, ClusterPairs(g, clusters[..c], o))
    {
      var ids := clusters[c].1;
      var key := ClusterKey(g, ids, o);
      WriteClusterStep(all, g, clusters, c, o);
      r := Assign(r, key, ids);
    }
    assert clusters[..|clusters|] == clusters;
  }

  lemma WriteClusterStep(all: ODict<string, seq<string>>, g: Group, clusters: seq<(int, seq<string>)>, c: nat, o: Oracles)
    requires c < |clusters|
    ensures AssignAll(all, ClusterPairs(g, clusters[..c + 1], o))
         == Assign(AssignAll(all, ClusterPairs(g, clusters[..c], o)), ClusterKey(g, clusters[c].1, o), clusters[c].1)
  {
    assert clusters[..c + 1] == clusters[..c] + [clusters[c]];
    ClusterPairsSnoc(g, clusters[..c], clusters[c], o);
    AssignAllSnoc(all, ClusterPairs(g, clusters[..c], o), (ClusterKey(g, clusters[c].1, o), clusters[c].1));
  }

  lemma ClusterPairsSnoc(g: Group, cs: seq<(int, seq<string>)>, c: (int, seq<string>), o: Oracles)
    ensures ClusterPairs(g, cs + [c], o) == ClusterPairs(g, cs, o) + [(ClusterKey(g, c.1, o), c.1)]
  {
  }

  /** One group of the loop: skipped when small, otherwise clustered and written cluster by cluster. */
  method WriteGroup(all: ODict<string, seq<string>>, g: Group, o: Oracles) returns (r: ODict<string, seq<string>>)
    requires LabelsFit(o)
    ensures r == AssignAll(all, GroupPairs(g, o))
  {
    if |g.1| < MIN_GROUP_ROWS {
      return all;
    }
    var clusters := ClusterFieldsBySemantics(Ids(g.1), o.labels(g.1));
    r := WriteClusters(all, g, clusters, o);
  }

  /** The group loop of `generate_template_fields_v2`, from an empty `all_mappings`. */
  method WriteGroups(gs: seq<Group>, o: Oracles) returns (all: ODict<string, seq<string>>)
    requires LabelsFit(o)
    ensures all == FromPairs(AllPairs(gs, o))
  {
    all := Empty();
    for n := 0 to |gs|
      invariant all == FromPairs(AllPairs(gs[..n], o))
    {
      var g := gs[n];
      assert gs[..n + 1] == gs[..n] + [g];
      AllPairsSnoc(gs[..n], g, o);
      FromPairsAppend(AllPairs(gs[..n], o), GroupPairs(g, o));
      all := WriteGroup(all, g, o);
    }
    assert gs[..|gs|] == gs;
  }

  lemma AllPairsSnoc(gs: seq<Group>, g: Group, o: Oracles)
    requires LabelsFit(o)
    ensures AllPairs(gs + [g], o) == AllPairs(gs, o) + GroupPairs(g, o)
  {
    assert (gs + [g])[..|gs|] == gs;
  }

  /** `generate_template_fields_v2`: load, check the columns, group, and write every group. */
  method GenerateTemplateFields(files: seq<CsvFile>, o: Oracles) returns (r: Result<ODict<string, seq<string>>>)
    requires LabelsFit(o)
    ensures r == TemplateFields(files, o)
  {
    var loaded := LoadAllFields(files);
    if loaded.Err? {
      return Err(loaded.error);
    }
    var frame := loaded.value;
    if !(REQUIRED_COLUMNS <= frame.columns) {
      return Err("ValueError");
    }
    var grouped := GroupInOrder(ByGroup(frame.fields));
    var all := WriteGroups(grouped.entries, o);
    r := Ok(all);
  }

  // ---------------------------------------------------------------------
  // What the output holds

  /** A group of fewer than three rows writes nothing; one of exactly three writes one key. */
  lemma SmallGroups(g: Group, o: Oracles)
    requires LabelsFit(o)
    ensures |g.1| < MIN_GROUP_ROWS ==> GroupPairs(g, o) == []
    ensures |g.1| == MIN_GROUP_ROWS ==> GroupPairs(g, o) == [(ClusterKey(g, Ids(g.1), o), Ids(g.1))]
  {
  }

  /** `key` is `</name:type:dataset/>` for the group's type and dataset and some sanitised name. */
  ghost predicate KeyOfGroup(key: string, g: Group)
  {
    exists raw :: key == MakeKey(Sanitise(raw), g.0.1, g.0.0)
  }

  /** A group writes only keys of its own, and only when it has at least three rows. */
  lemma GroupPairKeys(g: Group, o: Oracles, k: nat)
    requires LabelsFit(o) && k < |GroupPairs(g, o)|
    ensures |g.1| >= MIN_GROUP_ROWS && KeyOfGroup(GroupPairs(g, o)[k].0, g)
  {
    var ids := GroupClusters(g, o)[k].1;
    var raw := o.name(g.0.1, g.0.0, Take(Samples(g.1, ids), SAMPLE_COUNT));
    assert GroupPairs(g, o)[k].0 == MakeKey(Sanitise(raw), g.0.1, g.0.0);
  }

  /** Every key written belongs to a group of at least three rows. */
  lemma {:induction false} KeysOfGroups(gs: seq<Group>, o: Oracles, i: nat)
    requires LabelsFit(o) && i < |AllPairs(gs, o)|
    ensures exists g :: g in gs && |g.1| >= MIN_GROUP_ROWS && KeyOfGroup(AllPairs(gs, o)[i].0, g)
  {
    var front := gs[..|gs| - 1];
    var g := gs[|gs| - 1];
    var fp := AllPairs(front, o);
    assert AllPairs(gs, o) == fp + GroupPairs(g, o);
    if i < |fp| {
      KeysOfGroups(front, o, i);
      var g' :| g' in front && |g'.1| >= MIN_GROUP_ROWS && KeyOfGroup(fp[i].0, g');
      assert g' in gs;
    } else {
      GroupPairKeys(g, o, i - |fp|);
    }
  }

  /** A key holds the ids of the last cluster written under it. */
  lemma LaterClusterWins(gs: seq<Group>, o: Oracles, key: string)
    requires LabelsFit(o)
    ensures LastValue(AllPairs(gs, o), key, Find(FromPairs(AllPairs(gs, o)), key))
  {
    FromPairsLookup(AllPairs(gs, o), key);
  }

  // ---------------------------------------------------------------------
  // The keys read back by the other stages

  /** The alpha generator's key cleaning gives back the text inside the key, stripped. */
  lemma CleanKeyOfMakeKey(name: string, dtype: string, dataset: string)
    ensures GenerateAlpha.CleanKey(MakeKey(name, dtype, dataset)) == Text.Strip(name + ":" + dtype + ":" + dataset)
  {
    GenerateAlpha.CleanKeyOfTag(name + ":" + dtype + ":" + dataset);
  }

  /** Where the last colon of a key sits. */
  lemma KeyTail(name: string, dtype: string, dataset: string)
    ensures var key := MakeKey(name, dtype, dataset);
      && |key| == |name| + |dtype| + |dataset| + 6
      && key[..2] == "</" && key[2..2 + |name|] == name && key[2 + |name|] == ':'
      && key[3 + |name|..3 + |name| + |dtype|] == dtype && key[3 + |name| + |dtype|] == ':'
      && key[|key| - 2 - |dataset|..|key| - 2] == dataset
      && DatasetKeys.CloseAt(key, |key| - 2)
  {
  }

  /** The knowledge prompt reads back a dataset made of word characters and hyphens. */
  lemma KnowledgeReadsDataset(name: string, dtype: string, dataset: string)
    requires dataset != [] && forall k :: 0 <= k < |dataset| ==> DatasetKeys.IsWordOrHyphen(dataset[k])
    ensures DatasetKeys.KnowledgeDataset(MakeKey(name, dtype, dataset)) == Some(dataset)
  {
    var key := MakeKey(name, dtype, dataset);
    KeyTail(name, dtype, dataset);
    var e := |key| - 2;
    var i := e - |dataset| - 1;
    forall k | i < k < e ensures DatasetKeys.IsWordOrHyphen(key[k]) {
      assert key[k] == dataset[k - i - 1];
    }
    DatasetKeys.ColonRunComplete(key, DatasetKeys.IsWordOrHyphen, i, e);
    assert key[i + 1..e] == dataset;
  }

  /** The corrected hypothesis-prompt scan reads back any dataset without `/`, `>` or `:`. */
  lemma TemplateReadsDataset(name: string, dtype: string, dataset: string)
    requires dataset != [] && forall k :: 0 <= k < |dataset| ==> DatasetKeys.NotSlashGtOrColon(dataset[k])
    ensures DatasetKeys.TemplateDataset(MakeKey(name, dtype, dataset)) == Some(dataset)
  {
    var key := MakeKey(name, dtype, dataset);
    KeyTail(name, dtype, dataset);
    var e := |key| - 2;
    var i := e - |dataset| - 1;
    forall k | i < k < e ensures DatasetKeys.NotSlashGtOrColon(key[k]) {
      assert key[k] == dataset[k - i - 1];
    }
    DatasetKeys.ColonRunComplete(key, DatasetKeys.NotSlashGtOrColon, i, e);
    assert key[i + 1..e] == dataset;
  }

  /**
   * The hypothesis-prompt scan as written reads `type:dataset` instead of
   * the dataset from every ordinary three-part key.
   */
  lemma TemplateAsWrittenReadsTypeAndDataset(name: string, dtype: string, dataset: string)
    requires forall k :: 0 <= k < |name| ==> DatasetKeys.NotSlashGtOrColon(name[k])
    requires forall k :: 0 <= k < |dtype| ==> DatasetKeys.NotSlashOrGt(dtype[k])
    requires forall k :: 0 <= k < |dataset| ==> DatasetKeys.NotSlashOrGt(dataset[k])
    ensures DatasetKeys.TemplateDatasetAsWritten(MakeKey(name, dtype, dataset)) == Some(dtype + ":" + dataset)
  {
    var key := MakeKey(name, dtype, dataset);
    KeyTail(name, dtype, dataset);
    var e := |key| - 2;
    var i := 2 + |name|;
    assert key[i + 1..e] == dtype + ":" + dataset;
    forall k | i < k < e ensures DatasetKeys.NotSlashOrGt(key[k]) {
      assert key[k] == (dtype + ":" + dataset)[k - i - 1];
    }
    assert DatasetKeys.ColonMatch(key, DatasetKeys.NotSlashOrGt, i, e);
    forall j | 0 <= j < i ensures key[j] != ':' {
      if j >= 2 {
        assert key[j] == name[j - 2];
      }
    }
    DatasetKeys.TemplateDatasetAsWrittenComplete(key, i, e);
  }
}
