/**
 * `TweetScraper.export_csv`: the path a file is written to and the rows written to it.
 * Creating the folder and writing the file are left to the caller; the csv writer's
 * quoting is not modelled, so a row is the list of its fields.
 */
module Export {
  import opened Wrappers

  type Row = seq<string>

  /** The first row of every exported file. */
  const Header: Row := ["datetime", "tweet"]

  /** A file as `export_csv` writes it: where, and the rows in order. */
  datatype CsvFile = CsvFile(path: string, rows: seq<Row>)

  /** `if folder:` — no folder, and the empty folder name, both mean the working directory. */
  predicate HasFolder(folder: Option<string>) {
    folder.Some? && folder.value != ""
  }

  /** The path opened for writing: `folder + '/' + filename` inside a folder, else `filename`. */
  function TargetPath(filename: string, folder: Option<string>): (p: string)
    ensures |filename| <= |p| && p[|p| - |filename|..] == filename
    ensures HasFolder(folder) ==> folder.value + "/" <= p
    ensures !HasFolder(folder) ==> p == filename
  {
    if HasFolder(folder) then folder.value + "/" + filename else filename
  }

  /** `export_csv(filename, data, folder)`: the header row, then each row of `data` as given. */
  function ExportCsv(filename: string, data: seq<Row>, folder: Option<string>): (f: CsvFile)
    ensures f.path == TargetPath(filename, folder)
  {
    CsvFile(TargetPath(filename, folder), [Header] + data)
  }

  /** Reading a file back: the rows after the header, if the first row is the header. */
  function ReadCsv(rows: seq<Row>): (r: Option<seq<Row>>)
    ensures r.Some? <==> |rows| > 0 && rows[0] == Header
    ensures r.Some? ==> rows == [Header] + r.value
  {
    if |rows| > 0 && rows[0] == Header then Some(rows[1..]) else None
  }

  /** An exported file reads back as the data it was given. */
  lemma ReadExport(filename: string, data: seq<Row>, folder: Option<string>)
    ensures ReadCsv(ExportCsv(filename, data, folder).rows) == Some(data)
  {
    assert ([Header] + data)[1..] == data;
  }

  /** Rows that read back as `data` are exactly the rows `export_csv` writes for it. */
  lemma ExportOfRead(rows: seq<Row>, data: seq<Row>, filename: string, folder: Option<string>)
    requires ReadCsv(rows) == Some(data)
    ensures ExportCsv(filename, data, folder).rows == rows
  {
    assert rows == [rows[0]] + rows[1..];
  }

  /** A file that reads back as no rows at all holds the header alone. */
  lemma HeaderOnly(rows: seq<Row>)
    requires ReadCsv(rows).Some? && ListsOnce(ReadCsv(rows).value, {})
    ensures rows == [Header]
  {
    assert ReadCsv(rows).value == [];
  }

  /** The position of the last `/` in `p`, if any. */
  function LastSlash(p: string): (r: Option<nat>)
    ensures r.Some? ==> r.value < |p| && p[r.value] == '/' && forall k :: r.value < k < |p| ==> p[k] != '/'
    ensures r.None? ==> forall k :: 0 <= k < |p| ==> p[k] != '/'
  {
    if |p| == 0 then None
    else if p[|p| - 1] == '/' then Some(|p| - 1)
    else LastSlash(p[..|p| - 1])
  }

  /** `os.path.split` on a relative path: the folder before the last `/`, if any, and the name after it. */
  function SplitPath(p: string): (Option<string>, string) {
    match LastSlash(p)
    case None => (None, p)
    case Some(k) => (Some(p[..k]), p[k + 1..])
  }

  /** A name with no `/` in it. */
  predicate IsFileName(name: string) {
    forall k :: 0 <= k < |name| ==> name[k] != '/'
  }

  /** Position `k` of `a + b`, past the end of `a`, is position `k - |a|` of `b`. */
  lemma ConcatIndex(a: string, b: string, k: int)
    requires |a| <= k < |a| + |b|
    ensures (a + b)[k] == b[k - |a|]
  {
  }

  /** A `/` with none after it is the last one. */
  lemma LastSlashAt(p: string, j: nat)
    requires j < |p| && p[j] == '/' && forall k :: j < k < |p| ==> p[k] != '/'
    ensures LastSlash(p) == Some(j)
  {
  }

  /** The last `/` of `folder + "/" + name`, for a name with no `/`, is the one `export_csv` inserts. */
  lemma LastSlashOfJoin(folder: string, name: string)
    requires IsFileName(name)
    ensures LastSlash(folder + "/" + name) == Some(|folder|)
  {
    var pre := folder + "/";
    var p := pre + name;
    assert |pre| == |folder| + 1 && p[|folder|] == pre[|folder|] == '/';
    forall k | |pre| <= k < |p|
      ensures p[k] != '/'
    {
      ConcatIndex(pre, name, k);
    }
    LastSlashAt(p, |folder|);
  }

  /** Splitting the target path gives back the folder and the file name. */
  lemma SplitTarget(filename: string, folder: Option<string>)
    requires IsFileName(filename)
    ensures SplitPath(TargetPath(filename, folder)) == (if HasFolder(folder) then folder else None, filename)
  {
    if HasFolder(folder) {
      var p := folder.value + "/" + filename;
      LastSlashOfJoin(folder.value, filename);
      assert p[..|folder.value|] == folder.value;
      assert p[|folder.value| + 1..] == filename;
    }
  }

  /** The csv row of a `(datetime, text)` tuple. */
  function RowOf(p: (string, string)): Row {
    [p.0, p.1]
  }

  /** Distinct tuples give distinct rows. */
  lemma RowOfInjective(p: (string, string), q: (string, string))
    requires RowOf(p) == RowOf(q)
    ensures p == q
  {
    assert RowOf(p)[0] == RowOf(q)[0] && RowOf(p)[1] == RowOf(q)[1];
  }

  /** `rows` lists the tuples of `data` once each, in some order. */
  ghost predicate ListsOnce(rows: seq<Row>, data: set<(string, string)>) {
    |rows| == |data| && (forall p :: p in data <==> RowOf(p) in rows) && (forall r :: r in rows ==> |r| == 2)
  }

  /**
   * `writer.writerows(data)` on a set: one row per tuple, in the set's iteration order,
   * which the model leaves open.
   */
  method ListRows(data: set<(string, string)>) returns (rows: seq<Row>)
    ensures ListsOnce(rows, data)
  {
    rows := [];
    var rest := data;
    while rest != {}
      invariant rest <= data
      invariant |rows| + |rest| == |data|
      invariant forall p :: p in data <==> p in rest || RowOf(p) in rows
      invariant forall p :: p in rest ==> RowOf(p) !in rows
      invariant forall r :: r in rows ==> |r| == 2
      decreases |rest|
    {
      var p :| p in rest;
      forall q | q in rest - {p}
        ensures RowOf(q) != RowOf(p)
      {
        if RowOf(q) == RowOf(p) {
          RowOfInjective(q, p);
        }
      }
      rows := rows + [RowOf(p)];
      rest := rest - {p};
    }
  }
}
