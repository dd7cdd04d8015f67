// scraper_all.py: run every importable portal runner, keep the DataFrames that are not
// empty, concatenate them, drop repeated links, make sure the four record columns exist,
// label every row with the classifier when one can be loaded (-1 otherwise), and return
// the whole table with the subset labelled 1 (economic news).

module Aggregator {
  import opened Wrappers
  import opened Text
  import opened Dates
  import opened Article
  import opened Dedup
  import Runner

  // ---------------------------------------------------------------------------
  // DataFrames
  // ---------------------------------------------------------------------------

  /** A DataFrame cell: a string, a date, an integer label, or a missing value (NaN). */
  datatype Cell = Str(s: string) | DateCell(d: Date) | Int(i: int) | Missing

  /** A row, keyed by column name. */
  type Row = map<string, Cell>

  /** A DataFrame: its column names in order and its rows. */
  datatype Frame = Frame(columns: seq<string>, rows: seq<Row>)

  /** The exception the aggregation itself can raise. */
  datatype Failure = KeyError(key: string)

  /** `pd.DataFrame()`. */
  const Empty: Frame := Frame([], [])

  /** The columns of a runner's DataFrame, in the order of its records' keys. */
  const RecordColumns: seq<string> := ["judul", "link", "tanggal", "isi"]

  function ColumnSet(cs: seq<string>): set<string>
  {
    set c | c in cs
  }

  /** Column names are distinct and every row has exactly the frame's columns. */
  ghost predicate WellFormed(f: Frame)
  {
    (forall i, j :: 0 <= i < j < |f.columns| ==> f.columns[i] != f.columns[j])
    && forall k :: 0 <= k < |f.rows| ==> f.rows[k].Keys == ColumnSet(f.columns)
  }

  /** `df.empty`: no rows or no columns. */
  predicate IsEmpty(f: Frame)
  {
    |f.rows| == 0 || |f.columns| == 0
  }

  function RecordRow(r: Record): Row
  {
    map["judul" := Str(r.judul), "link" := Str(r.link), "tanggal" := DateCell(r.tanggal), "isi" := Str(r.isi)]
  }

  /** `pd.DataFrame(results)` at the end of every runner. */
  function FromRecords(rs: seq<Record>): (f: Frame)
    ensures WellFormed(f) && |f.rows| == |rs|
    ensures IsEmpty(f) <==> rs == []
    ensures rs != [] ==> f.columns == RecordColumns
    ensures forall k :: 0 <= k < |rs| ==> f.rows[k].Keys == {"judul", "link", "tanggal", "isi"}
    ensures forall k :: 0 <= k < |rs| ==>
              f.rows[k]["judul"] == Str(rs[k].judul) && f.rows[k]["link"] == Str(rs[k].link)
              && f.rows[k]["tanggal"] == DateCell(rs[k].tanggal) && f.rows[k]["isi"] == Str(rs[k].isi)
  {
    if rs == [] then Empty
    else
      var f := Frame(RecordColumns, seq(|rs|, k requires 0 <= k < |rs| => RecordRow(rs[k])));
      assert ColumnSet(RecordColumns) == {"judul", "link", "tanggal", "isi"};
      f
  }

  /** `_try_call`: the parser's DataFrame, or an empty one when the parser raised. */
  function TryCall(outcome: Result<Frame, PyError>): (f: Frame)
    ensures outcome.Err? ==> IsEmpty(f)
    ensures outcome.Ok? ==> f == outcome.value
  {
    match outcome
    case Ok(df) => df
    case Err(_) => Empty
  }

  /** What `_try_call` on one portal runner gives. */
  function PortalFrame(outcome: Result<seq<Record>, PyError>): Frame
  {
    TryCall(match outcome case Ok(rs) => Ok(FromRecords(rs)) case Err(e) => Err(e))
  }

  // ---------------------------------------------------------------------------
  // Collecting the parsers' DataFrames
  // ---------------------------------------------------------------------------

  /**
   * One `if parser: df = _try_call(...); if ... not df.empty: dfs.append(df)` block:
   * `None` stands for a parser whose import failed.
   */
  function Contribution(o: Option<Frame>): seq<Frame>
  {
    if o.Some? && !IsEmpty(o.value) then [o.value] else []
  }

  /** The `dfs` list after the parser blocks, in their order. */
  function Collect(outcomes: seq<Option<Frame>>): (dfs: seq<Frame>)
    ensures |dfs| <= |outcomes|
    ensures forall k :: 0 <= k < |dfs| ==> !IsEmpty(dfs[k]) && Some(dfs[k]) in outcomes
  {
    if outcomes == [] then []
    else
      var init := outcomes[..|outcomes| - 1];
      var prev := Collect(init);
      assert forall k :: 0 <= k < |prev| ==> Some(prev[k]) in init;
      prev + Contribution(outcomes[|outcomes| - 1])
  }

  /** One more parser block appends its DataFrame, if any, to the collected list. */
  lemma CollectSnoc(outcomes: seq<Option<Frame>>, o: Option<Frame>)
    ensures Collect(outcomes + [o]) == Collect(outcomes) + Contribution(o)
  {
    assert (outcomes + [o])[..|outcomes|] == outcomes;
  }

  /** Every imported parser whose DataFrame is not empty is collected. */
  lemma {:induction false} CollectComplete(outcomes: seq<Option<Frame>>, k: nat)
    requires k < |outcomes|
    ensures outcomes[k].Some? && !IsEmpty(outcomes[k].value) ==> outcomes[k].value in Collect(outcomes)
  {
    if k < |outcomes| - 1 {
      CollectComplete(outcomes[..|outcomes| - 1], k);
    }
  }

  /** The DataFrames of the imported parsers, in block order. */
  function Offered(outcomes: seq<Option<Frame>>): seq<Frame>
  {
    if outcomes == [] then []
    else
      Offered(outcomes[..|outcomes| - 1])
      + match outcomes[|outcomes| - 1] case None => [] case Some(f) => [f]
  }

  /** The collected DataFrames keep the order of the parser blocks. */
  lemma {:induction false} CollectOrder(outcomes: seq<Option<Frame>>)
    ensures IsSubsequence(Collect(outcomes), Offered(outcomes))
  {
    if outcomes != [] {
      var init, o := outcomes[..|outcomes| - 1], outcomes[|outcomes| - 1];
      CollectOrder(init);
      var c, off := Collect(init), Offered(init);
      if o.Some? {
        assert Offered(outcomes) == off + [o.value];
        if !IsEmpty(o.value) {
          assert Collect(outcomes) == c + [o.value];
          assert (c + [o.value])[..|c|] == c;
        } else {
          assert Collect(outcomes) == c;
          SubsequenceExtend(c, off, o.value);
        }
      } else {
        assert Collect(outcomes) == c && Offered(outcomes) == off;
      }
    }
  }

  /** The rows the parser blocks offer: those of every imported parser's DataFrame. */
  function RowsOffered(outcomes: seq<Option<Frame>>): nat
  {
    if outcomes == [] then 0
    else
      RowsOffered(outcomes[..|outcomes| - 1])
      + match outcomes[|outcomes| - 1] case None => 0 case Some(f) => |f.rows|
  }

  /** When no parser offers more than `cap` rows, together they offer at most `cap` per parser. */
  lemma {:induction false} RowsOfferedBound(outcomes: seq<Option<Frame>>, cap: nat)
    requires forall k :: 0 <= k < |outcomes| && outcomes[k].Some? ==> |outcomes[k].value.rows| <= cap
    ensures RowsOffered(outcomes) <= |outcomes| * cap
  {
    if outcomes != [] {
      var init := outcomes[..|outcomes| - 1];
      assert forall k :: 0 <= k < |init| ==> init[k] == outcomes[k];
      RowsOfferedBound(init, cap);
    }
  }

  /** The collected DataFrames hold no more rows than the parsers offered. */
  lemma {:induction false} CollectRows(outcomes: seq<Option<Frame>>)
    ensures TotalRows(Collect(outcomes)) <= RowsOffered(outcomes)
  {
    if outcomes != [] {
      var init := outcomes[..|outcomes| - 1];
      CollectRows(init);
      TotalRowsAppend(Collect(init), Contribution(outcomes[|outcomes| - 1]));
    }
  }

  // ---------------------------------------------------------------------------
  // pd.concat(dfs, ignore_index=True)
  // ---------------------------------------------------------------------------

  function Flatten<T>(xss: seq<seq<T>>): seq<T>
  {
    if xss == [] then [] else xss[0] + Flatten(xss[1..])
  }

  lemma {:induction false} FlattenMember<T>(xss: seq<seq<T>>, x: T)
    ensures x in Flatten(xss) <==> exists j :: 0 <= j < |xss| && x in xss[j]
  {
    if xss != [] {
      FlattenMember(xss[1..], x);
      if x in Flatten(xss[1..]) {
        var j :| 0 <= j < |xss[1..]| && x in xss[1..][j];
        assert x in xss[j + 1];
      }
      if exists j :: 0 <= j < |xss| && x in xss[j] {
        var j :| 0 <= j < |xss| && x in xss[j];
        if j > 0 {
          assert x in xss[1..][j - 1];
        }
      }
    }
  }

  function TotalRows(dfs: seq<Frame>): nat
  {
    if dfs == [] then 0 else |dfs[0].rows| + TotalRows(dfs[1..])
  }

  lemma {:induction false} TotalRowsAppend(a: seq<Frame>, b: seq<Frame>)
    ensures TotalRows(a + b) == TotalRows(a) + TotalRows(b)
  {
    if a != [] {
      assert (a + b)[0] == a[0] && (a + b)[1..] == a[1..] + b;
      TotalRowsAppend(a[1..], b);
    } else {
      assert a + b == b;
    }
  }

  /** The concatenation's columns: every frame's columns, each once, in order of first appearance. */
  function ConcatColumns(dfs: seq<Frame>): seq<string>
  {
    DedupBy(Flatten(seq(|dfs|, j requires 0 <= j < |dfs| => dfs[j].columns)), (c: string) => c)
  }

  lemma ConcatColumnsFacts(dfs: seq<Frame>)
    ensures var cs := ConcatColumns(dfs);
      (forall i, j :: 0 <= i < j < |cs| ==> cs[i] != cs[j])
      && forall c :: c in cs <==> exists j :: 0 <= j < |dfs| && c in dfs[j].columns
  {
    var lists := seq(|dfs|, j requires 0 <= j < |dfs| => dfs[j].columns);
    var id := (c: string) => c;
    var cs := ConcatColumns(dfs);
    DedupByCorrect(Flatten(lists), id);
    forall c ensures c in cs <==> exists j :: 0 <= j < |dfs| && c in dfs[j].columns {
      FlattenMember(lists, c);
      if c in cs {
        var k :| 0 <= k < |cs| && cs[k] == c;
        assert id(cs[k]) in Keys(cs, id);
      }
      if c in Flatten(lists) {
        var k :| 0 <= k < |Flatten(lists)| && Flatten(lists)[k] == c;
        assert id(Flatten(lists)[k]) in Keys(Flatten(lists), id);
        var i :| 0 <= i < |cs| && id(cs[i]) == c;
      }
      if exists j :: 0 <= j < |dfs| && c in dfs[j].columns {
        var j :| 0 <= j < |dfs| && c in dfs[j].columns;
        assert c in lists[j];
      }
    }
  }

  /** A row widened to `cols`: a column the row lacks holds NaN. */
  function Pad(row: Row, cols: seq<string>): (r: Row)
    ensures r.Keys == ColumnSet(cols)
    ensures forall c :: c in cols && c in row ==> r[c] == row[c]
    ensures forall c :: c in cols && c !in row ==> r[c] == Missing
  {
    map c | c in cols :: if c in row then row[c] else Missing
  }

  function PaddedRows(f: Frame, cols: seq<string>): seq<Row>
  {
    seq(|f.rows|, k requires 0 <= k < |f.rows| => Pad(f.rows[k], cols))
  }

  /** `pd.concat(dfs, ignore_index=True)`: the union of the columns, the rows one frame after another. */
  function Concat(dfs: seq<Frame>): Frame
  {
    var cols := ConcatColumns(dfs);
    Frame(cols, Flatten(seq(|dfs|, j requires 0 <= j < |dfs| => PaddedRows(dfs[j], cols))))
  }

  lemma {:induction false} FlattenRowCount(dfs: seq<Frame>, cols: seq<string>)
    ensures |Flatten(seq(|dfs|, j requires 0 <= j < |dfs| => PaddedRows(dfs[j], cols)))| == TotalRows(dfs)
  {
    if dfs != [] {
      var xss := seq(|dfs|, j requires 0 <= j < |dfs| => PaddedRows(dfs[j], cols));
      assert xss[1..] == seq(|dfs[1..]|, j requires 0 <= j < |dfs[1..]| => PaddedRows(dfs[1..][j], cols));
      FlattenRowCount(dfs[1..], cols);
    }
  }

  /** Flattening puts the elements of `xss[j]` after those of the lists before it. */
  lemma {:induction false} FlattenIndex<T>(xss: seq<seq<T>>, j: nat, k: nat)
    requires j < |xss| && k < |xss[j]|
    ensures |Flatten(xss[..j])| + k < |Flatten(xss)| && Flatten(xss)[|Flatten(xss[..j])| + k] == xss[j][k]
  {
    if j > 0 {
      FlattenIndex(xss[1..], j - 1, k);
      assert xss[..j][0] == xss[0] && xss[..j][1..] == xss[1..][..j - 1];
    } else {
      assert xss[..j] == [];
    }
  }

  /** Where the rows of `dfs[j]` start in the concatenation: after the rows of the frames before it. */
  function Offset(dfs: seq<Frame>, j: nat): nat
    requires j <= |dfs|
  {
    TotalRows(dfs[..j])
  }

  /** The concatenation lists the frames' rows frame after frame, each frame's rows in their order. */
  lemma ConcatOrder(dfs: seq<Frame>, j: nat, k: nat)
    requires j < |dfs| && k < |dfs[j].rows|
    ensures Offset(dfs, j) + k < |Concat(dfs).rows|
    ensures Concat(dfs).rows[Offset(dfs, j) + k] == Pad(dfs[j].rows[k], Concat(dfs).columns)
  {
    var cols := ConcatColumns(dfs);
    var xss := seq(|dfs|, j requires 0 <= j < |dfs| => PaddedRows(dfs[j], cols));
    FlattenIndex(xss, j, k);
    assert xss[..j] == seq(|dfs[..j]|, i requires 0 <= i < |dfs[..j]| => PaddedRows(dfs[..j][i], cols));
    FlattenRowCount(dfs[..j], cols);
  }

  /**
   * The concatenation is well formed, has every row of every frame, widened to the
   * union of the columns, and no other row.
   */
  lemma ConcatFacts(dfs: seq<Frame>)
    ensures var all := Concat(dfs);
      WellFormed(all) && |all.rows| == TotalRows(dfs)
      && (forall c :: c in all.columns <==> exists j :: 0 <= j < |dfs| && c in dfs[j].columns)
      && (forall r :: r in all.rows <==>
            exists j, k :: 0 <= j < |dfs| && 0 <= k < |dfs[j].rows| && r == Pad(dfs[j].rows[k], all.columns))
  {
    var cols := ConcatColumns(dfs);
    var xss := seq(|dfs|, j requires 0 <= j < |dfs| => PaddedRows(dfs[j], cols));
    var all := Concat(dfs);
    ConcatColumnsFacts(dfs);
    FlattenRowCount(dfs, cols);
    forall r ensures r in all.rows <==>
        exists j, k :: 0 <= j < |dfs| && 0 <= k < |dfs[j].rows| && r == Pad(dfs[j].rows[k], cols) {
      FlattenMember(xss, r);
      if r in all.rows {
        var j :| 0 <= j < |xss| && r in xss[j];
        var k :| 0 <= k < |xss[j]| && xss[j][k] == r;
      }
      if exists j, k :: 0 <= j < |dfs| && 0 <= k < |dfs[j].rows| && r == Pad(dfs[j].rows[k], cols) {
        var j, k :| 0 <= j < |dfs| && 0 <= k < |dfs[j].rows| && r == Pad(dfs[j].rows[k], cols);
        assert xss[j][k] == r;
      }
    }
    ConcatWellFormed(dfs);
  }

  /** The concatenation is well formed and its columns are those of the frames. */
  lemma ConcatWellFormed(dfs: seq<Frame>)
    ensures WellFormed(Concat(dfs))
    ensures forall c :: c in Concat(dfs).columns <==> exists j :: 0 <= j < |dfs| && c in dfs[j].columns
  {
    var cols := ConcatColumns(dfs);
    var xss := seq(|dfs|, j requires 0 <= j < |dfs| => PaddedRows(dfs[j], cols));
    var all := Concat(dfs);
    ConcatColumnsFacts(dfs);
    forall k | 0 <= k < |all.rows| ensures all.rows[k].Keys == ColumnSet(cols) {
      FlattenMember(xss, all.rows[k]);
    }
  }

  // ---------------------------------------------------------------------------
  // drop_duplicates(subset=["link"]).reset_index(drop=True)
  // ---------------------------------------------------------------------------

  function LinkOf(r: Row): Cell
  {
    if "link" in r then r["link"] else Missing
  }

  /** `drop_duplicates(subset=["link"])`: the first row of each link; a KeyError without the column. */
  function DropDuplicates(f: Frame): (r: Result<Frame, Failure>)
    ensures r.Err? <==> "link" !in f.columns
    ensures r.Err? ==> r.error == KeyError("link")
    ensures r.Ok? ==> r.value.columns == f.columns && |r.value.rows| <= |f.rows|
  {
    if "link" !in f.columns then Err(KeyError("link"))
    else
      DedupByCorrect(f.rows, LinkOf);
      DedupByLength(f.rows, LinkOf);
      Ok(Frame(f.columns, DedupBy(f.rows, LinkOf)))
  }

  lemma {:induction false} DedupByLength<T, K>(xs: seq<T>, key: T -> K)
    ensures |DedupBy(xs, key)| <= |xs|
  {
    if xs != [] {
      DedupByLength(xs[..|xs| - 1], key);
    }
  }

  /**
   * After dropping duplicates no two rows share a link, no link is lost, the rows keep
   * their order, and each remaining row is the first with its link.
   */
  lemma DropDuplicatesCorrect(f: Frame)
    requires "link" in f.columns
    ensures var d := DropDuplicates(f).value.rows;
      UniqueKeys(d, LinkOf) && Keys(d, LinkOf) == Keys(f.rows, LinkOf) && IsSubsequence(d, f.rows)
      && forall k :: 0 <= k < |d| ==> exists i :: 0 <= i < |f.rows| && f.rows[i] == d[k] && FirstOfKey(f.rows, LinkOf, i)
  {
    DedupByCorrect(f.rows, LinkOf);
  }

  lemma DropDuplicatesWellFormed(f: Frame)
    requires WellFormed(f) && "link" in f.columns
    ensures WellFormed(DropDuplicates(f).value)
  {
    var d := DedupBy(f.rows, LinkOf);
    DedupByFirst(f.rows, LinkOf);
    forall k | 0 <= k < |d| ensures d[k].Keys == ColumnSet(f.columns) {
      var i :| 0 <= i < |f.rows| && f.rows[i] == d[k] && FirstOfKey(f.rows, LinkOf, i);
    }
  }

  // ---------------------------------------------------------------------------
  // Columns
  // ---------------------------------------------------------------------------

  /** `df[c] = vals`: column `c` is set row by row, appended when it is new. */
  function SetColumn(f: Frame, c: string, vals: seq<Cell>): (r: Frame)
    requires |vals| == |f.rows|
    ensures |r.rows| == |f.rows| && c in r.columns
    ensures r.columns == if c in f.columns then f.columns else f.columns + [c]
    ensures forall k :: 0 <= k < |r.rows| ==> c in r.rows[k] && r.rows[k][c] == vals[k]
    ensures forall k, d :: 0 <= k < |r.rows| && d != c && d in f.rows[k] ==> d in r.rows[k] && r.rows[k][d] == f.rows[k][d]
    ensures WellFormed(f) ==> WellFormed(r)
  {
    var cols := if c in f.columns then f.columns else f.columns + [c];
    assert ColumnSet(cols) == ColumnSet(f.columns) + {c};
    Frame(cols, seq(|f.rows|, k requires 0 <= k < |f.rows| => f.rows[k][c := vals[k]]))
  }

  /** `df[c] = df.get(c, "")` for a column `c` the frame lacks. */
  function AddColumnIfMissing(f: Frame, c: string): (r: Frame)
    ensures |r.rows| == |f.rows| && ColumnSet(r.columns) == ColumnSet(f.columns) + {c}
    ensures c in f.columns ==> r == f
    ensures c !in f.columns ==> forall k :: 0 <= k < |r.rows| ==> c in r.rows[k] && r.rows[k][c] == Str("")
    ensures forall k, d :: 0 <= k < |r.rows| && d != c && d in f.rows[k] ==> d in r.rows[k] && r.rows[k][d] == f.rows[k][d]
    ensures WellFormed(f) ==> WellFormed(r)
  {
    if c in f.columns then f else SetColumn(f, c, seq(|f.rows|, _ => Str("")))
  }

  /** The `for col in [...]` loop over the columns `cs`. */
  function FillColumns(f: Frame, cs: seq<string>): (r: Frame)
    ensures |r.rows| == |f.rows|
  {
    if cs == [] then f else AddColumnIfMissing(FillColumns(f, cs[..|cs| - 1]), cs[|cs| - 1])
  }

  /**
   * Filling the columns keeps the frame well formed, adds every column of `cs` that was
   * missing with "" in every row, and changes no existing cell.
   */
  lemma {:induction false} FillColumnsFacts(f: Frame, cs: seq<string>)
    requires WellFormed(f)
    ensures var r := FillColumns(f, cs);
      WellFormed(r) && ColumnSet(r.columns) == ColumnSet(f.columns) + ColumnSet(cs)
      && (forall k, d :: 0 <= k < |r.rows| && d in f.rows[k] ==> d in r.rows[k] && r.rows[k][d] == f.rows[k][d])
      && (forall k, c :: 0 <= k < |r.rows| && c in cs && c !in f.columns ==> c in r.rows[k] && r.rows[k][c] == Str(""))
  {
    if cs != [] {
      var init, c := cs[..|cs| - 1], cs[|cs| - 1];
      assert cs == init + [c];
      assert ColumnSet(cs) == ColumnSet(init) + {c};
      FillColumnsFacts(f, init);
      var prev := FillColumns(f, init);
      var r := AddColumnIfMissing(prev, c);
      assert r == FillColumns(f, cs);
      forall k, d | 0 <= k < |r.rows| && d in f.rows[k] ensures d in r.rows[k] && r.rows[k][d] == f.rows[k][d] {
        assert d in prev.rows[k] && d in ColumnSet(prev.columns);
      }
      forall k, x | 0 <= k < |r.rows| && x in cs && x !in f.columns ensures x in r.rows[k] && r.rows[k][x] == Str("") {
        if x != c {
          assert x in init;
        }
      }
    }
  }

  // ---------------------------------------------------------------------------
  // The classifier
  // ---------------------------------------------------------------------------

  /**
   * A loaded model: whether it has a `predict` method, and what `predict` returns on a
   * list of texts (None when it raises).
   */
  datatype Model = Model(hasPredict: bool, predict: seq<string> -> Option<seq<int>>)

  /**
   * The file system as `_load_model_safe` sees it: the directory of scraper_all.py, which
   * paths exist, and what `joblib.load` gives for a path (None when it raises).
   */
  datatype Files = Files(moduleDir: string, present: string -> bool, load: string -> Option<Model>)

  const ModelPath: string := "model_berita_svm2.pkl"

  /** `os.path.join(a, b)` on POSIX, for a relative `b`. */
  function JoinPath(a: string, b: string): (r: string)
    ensures EndsWith(r, b)
  {
    if a == [] || a[|a| - 1] == '/' then a + b else a + "/" + b
  }

  predicate EndsWith(s: string, suffix: string)
  {
    |suffix| <= |s| && s[|s| - |suffix|..] == suffix
  }

  /** The candidate path of `_load_model_safe`: an absolute path as given, a relative one under the module's directory. */
  function ResolvePath(fs: Files, path: string): (r: string)
    ensures StartsWith(path, "/") ==> r == path
    ensures !StartsWith(path, "/") ==> StartsWith(r, fs.moduleDir) && EndsWith(r, path)
  {
    if StartsWith(path, "/") then path else JoinPath(fs.moduleDir, path)
  }

  /** `_load_model_safe`: None when the file is missing or cannot be loaded, never an exception. */
  function LoadModelSafe(fs: Files, path: string): (m: Option<Model>)
    ensures m.Some? ==> fs.present(ResolvePath(fs, path)) && m == fs.load(ResolvePath(fs, path))
    ensures fs.present(ResolvePath(fs, path)) ==> m == fs.load(ResolvePath(fs, path))
  {
    var candidate := ResolvePath(fs, path);
    if !fs.present(candidate) then None else fs.load(candidate)
  }

  /** `str(n)` for an integer. */
  function IntText(i: int): string
  {
    if i < 0 then "-" + NatToString(-i) else NatToString(i)
  }

  /**
   * `fillna("").astype(str)` on one cell. A Python date always has a four-digit year;
   * a date the model cannot write that way has no text.
   */
  function CellText(c: Cell): string
  {
    match c
    case Str(s) => s
    case Missing => ""
    case Int(i) => IntText(i)
    case DateCell(d) => if ValidDate(d) then IsoText(d) else ""
  }

  /** `df_all["isi"].fillna("").astype(str).tolist()`. */
  function Texts(f: Frame): (ts: seq<string>)
    ensures |ts| == |f.rows|
  {
    seq(|f.rows|, k requires 0 <= k < |f.rows| => CellText(if "isi" in f.rows[k] then f.rows[k]["isi"] else Missing))
  }

  /** Each text is the row's `isi` string, and "" when the row has no `isi` or it is NaN. */
  lemma TextsCells(f: Frame)
    ensures forall k :: 0 <= k < |f.rows| && "isi" in f.rows[k] && f.rows[k]["isi"].Str? ==> Texts(f)[k] == f.rows[k]["isi"].s
    ensures forall k :: 0 <= k < |f.rows| && ("isi" !in f.rows[k] || f.rows[k]["isi"] == Missing) ==> Texts(f)[k] == ""
  {
  }

  /** The model's labels are used when it has `predict`, `predict` succeeds and gives one label per row. */
  predicate Predicts(model: Option<Model>, texts: seq<string>)
  {
    model.Some? && model.value.hasPredict && model.value.predict(texts).Some?
    && |model.value.predict(texts).value| == |texts|
  }

  /**
   * The `label` column: the model's predictions, or -1 for every row when there is no
   * model, it has no `predict`, `predict` raises, or the assignment of a list of the
   * wrong length raises.
   */
  function Labels(model: Option<Model>, texts: seq<string>): (ls: seq<int>)
    ensures |ls| == |texts|
    ensures Predicts(model, texts) ==> ls == model.value.predict(texts).value
    ensures !Predicts(model, texts) ==> forall k :: 0 <= k < |ls| ==> ls[k] == -1
  {
    if Predicts(model, texts) then model.value.predict(texts).value else seq(|texts|, _ => -1)
  }

  function IntCells(ls: seq<int>): (cs: seq<Cell>)
    ensures |cs| == |ls| && forall k :: 0 <= k < |ls| ==> cs[k] == Int(ls[k])
  {
    seq(|ls|, k requires 0 <= k < |ls| => Int(ls[k]))
  }

  // ---------------------------------------------------------------------------
  // df_all[df_all["label"] == 1]
  // ---------------------------------------------------------------------------

  predicate IsEconomic(r: Row)
  {
    "label" in r && r["label"] == Int(1)
  }

  function EconomicRows(rows: seq<Row>): seq<Row>
  {
    if rows == [] then []
    else
      EconomicRows(rows[..|rows| - 1]) + (if IsEconomic(rows[|rows| - 1]) then [rows[|rows| - 1]] else [])
  }

  /** `df_all[df_all["label"] == 1].reset_index(drop=True)`. */
  function Economic(f: Frame): Frame
  {
    Frame(f.columns, EconomicRows(f.rows))
  }

  /** The economic rows are exactly the rows labelled 1, in their order. */
  lemma {:induction false} EconomicRowsCorrect(rows: seq<Row>)
    ensures forall r :: r in EconomicRows(rows) <==> r in rows && IsEconomic(r)
    ensures IsSubsequence(EconomicRows(rows), rows)
  {
    if rows != [] {
      var init, last := rows[..|rows| - 1], rows[|rows| - 1];
      assert rows == init + [last];
      EconomicRowsCorrect(init);
      if IsEconomic(last) {
        var e := EconomicRows(init) + [last];
        assert e[..|e| - 1] == EconomicRows(init) && e[|e| - 1] == last;
      } else {
        assert EconomicRows(rows) == EconomicRows(init);
        SubsequenceExtend(EconomicRows(init), init, last);
      }
    }
  }

  // ---------------------------------------------------------------------------
  // scrape_dan_klasifikasi
  // ---------------------------------------------------------------------------

  /** Which modules import, and the outcome of the radar parser, whose module is not part of this model. */
  datatype Sources = Sources(imported: set<Runner.Portal>, radar: Option<Result<Frame, PyError>>)

  /** The call every portal block makes: `max_pages=2` and the caller's `max_articles`. */
  function PortalConfig(start: PyValue, end: PyValue, maxArticles: int): Runner.Config
  {
    Runner.Config(start, end, 2, maxArticles)
  }

  /** The DataFrame one portal block contributes, None when its parser did not import. */
  function PortalOutcome(p: Runner.Portal, env: Runner.Env, src: Sources, cfg: Runner.Config): Option<Frame>
  {
    if p in src.imported then Some(PortalFrame(Runner.RunSpec(p, env, cfg))) else None
  }

  /** The parser blocks, in their order: detik, rmol, antara, lampost, radar. */
  function Outcomes(env: Runner.Env, src: Sources, cfg: Runner.Config): seq<Option<Frame>>
  {
    [PortalOutcome(Runner.DetikNews, env, src, cfg), PortalOutcome(Runner.RmolNews, env, src, cfg),
     PortalOutcome(Runner.AntaraNews, env, src, cfg), PortalOutcome(Runner.LampostNews, env, src, cfg),
     match src.radar case None => None case Some(o) => Some(TryCall(o))]
  }

  /** What happens after the parser blocks, from the collected DataFrames. */
  function Aggregate(dfs: seq<Frame>, fs: Files): Result<(Frame, Frame), Failure>
  {
    if dfs == [] then Ok((Empty, Empty))
    else
      match DropDuplicates(Concat(dfs))
      case Err(e) => Err(e)
      case Ok(unique) =>
        var labelled := Labelled(unique, fs);
        Ok((labelled, Economic(labelled)))
  }

  /** The table after `drop_duplicates`: the four record columns filled in, then `label` set. */
  function Labelled(unique: Frame, fs: Files): Frame
  {
    var all := FillColumns(unique, RecordColumns);
    SetColumn(all, "label", IntCells(Labels(LoadModelSafe(fs, ModelPath), Texts(all))))
  }

  /** The whole of `scrape_dan_klasifikasi`. */
  function ScrapeSpec(env: Runner.Env, src: Sources, fs: Files, start: PyValue, end: PyValue, maxArticles: int)
    : Result<(Frame, Frame), Failure>
  {
    Aggregate(Collect(Outcomes(env, src, PortalConfig(start, end, maxArticles))), fs)
  }

  // ---------------------------------------------------------------------------
  // What the aggregation promises
  // ---------------------------------------------------------------------------

  /**
   * With no DataFrame collected the result is two empty DataFrames; otherwise the
   * aggregation raises exactly when no collected DataFrame has a `link` column.
   */
  lemma AggregateErrors(dfs: seq<Frame>, fs: Files)
    ensures dfs == [] ==> Aggregate(dfs, fs) == Ok((Empty, Empty))
    ensures Aggregate(dfs, fs).Err? <==> dfs != [] && forall j :: 0 <= j < |dfs| ==> "link" !in dfs[j].columns
  {
    ConcatFacts(dfs);
  }

  /** The stages after `drop_duplicates` keep every row's link. */
  lemma LabelledLinks(unique: Frame, fs: Files)
    requires WellFormed(unique) && "link" in unique.columns
    ensures var labelled := Labelled(unique, fs);
      WellFormed(labelled) && |labelled.rows| == |unique.rows|
      && ColumnSet(RecordColumns) + {"label"} <= ColumnSet(labelled.columns)
      && forall k :: 0 <= k < |unique.rows| ==> LinkOf(labelled.rows[k]) == LinkOf(unique.rows[k])
  {
    FillColumnsFacts(unique, RecordColumns);
    var all := FillColumns(unique, RecordColumns);
    forall k | 0 <= k < |unique.rows| ensures "link" in unique.rows[k] {
      assert "link" in ColumnSet(unique.columns);
    }
  }

  /** Filling the columns and labelling change no cell but `label`, so every row keeps its link. */
  lemma LabelledCells(unique: Frame, fs: Files)
    requires WellFormed(unique) && "link" in unique.columns
    ensures var labelled := Labelled(unique, fs);
      |labelled.rows| == |unique.rows|
      && (forall k :: 0 <= k < |unique.rows| ==> KeepsCells(labelled.rows[k], unique.rows[k]))
      && forall k :: 0 <= k < |unique.rows| ==> LinkOf(labelled.rows[k]) == LinkOf(unique.rows[k])
  {
    FillColumnsFacts(unique, RecordColumns);
    forall k | 0 <= k < |unique.rows| ensures "link" in unique.rows[k] {
      assert "link" in ColumnSet(unique.columns);
    }
  }

  /**
   * The whole table is well formed, has the four record columns and `label`, has no two
   * rows with the same link, and no more rows than were collected.
   */
  lemma AggregateTable(dfs: seq<Frame>, fs: Files)
    ensures var r := Aggregate(dfs, fs);
      r.Ok? && dfs != [] ==>
        WellFormed(r.value.0) && UniqueKeys(r.value.0.rows, LinkOf) && |r.value.0.rows| <= TotalRows(dfs)
        && ColumnSet(RecordColumns) + {"label"} <= ColumnSet(r.value.0.columns)
  {
    var r := Aggregate(dfs, fs);
    if r.Ok? && dfs != [] {
      var all := Concat(dfs);
      ConcatFacts(dfs);
      var unique := DropDuplicates(all).value;
      DropDuplicatesCorrect(all);
      DropDuplicatesWellFormed(all);
      LabelledLinks(unique, fs);
    }
  }

  /** `row` holds every cell of `src` except its label. */
  ghost predicate KeepsCells(row: Row, src: Row)
  {
    forall d :: d in src && d != "label" ==> d in row && row[d] == src[d]
  }

  /** `row` holds, apart from its label, the cells of the first row of `rows` with its link. */
  ghost predicate KeepsFirstRow(row: Row, rows: seq<Row>)
  {
    exists n :: 0 <= n < |rows| && FirstOfKey(rows, LinkOf, n) && KeepsCells(row, rows[n])
  }

  /**
   * Each row of the whole table is the first collected row with its link, its cells kept
   * (only `label` is set anew): the rows left by `drop_duplicates`, in their order. The
   * table has the links of the collected rows and no others.
   */
  lemma AggregateFirstRows(dfs: seq<Frame>, fs: Files)
    ensures var r := Aggregate(dfs, fs);
      var all := Concat(dfs);
      r.Ok? && dfs != [] ==>
        var unique := DropDuplicates(all).value.rows;
        var table := r.value.0.rows;
        |table| == |unique| && IsSubsequence(unique, all.rows)
        && (forall i :: 0 <= i < |table| ==> KeepsCells(table[i], unique[i]))
        && (forall i :: 0 <= i < |table| ==> KeepsFirstRow(table[i], all.rows))
        && Keys(table, LinkOf) == Keys(all.rows, LinkOf)
  {
    if Aggregate(dfs, fs).Ok? && dfs != [] {
      ConcatWellFormed(dfs);
      LabelledFirstRows(Concat(dfs), fs);
    }
  }

  /** `AggregateFirstRows` for any well-formed frame with a `link` column in place of the concatenation. */
  lemma LabelledFirstRows(all: Frame, fs: Files)
    requires WellFormed(all) && "link" in all.columns
    ensures var unique := DropDuplicates(all).value.rows;
      var table := Labelled(DropDuplicates(all).value, fs).rows;
      |table| == |unique| && IsSubsequence(unique, all.rows)
      && (forall i :: 0 <= i < |table| ==> KeepsCells(table[i], unique[i]))
      && (forall i :: 0 <= i < |table| ==> KeepsFirstRow(table[i], all.rows))
      && Keys(table, LinkOf) == Keys(all.rows, LinkOf)
  {
    var u := DropDuplicates(all).value;
    DropDuplicatesCorrect(all);
    DropDuplicatesWellFormed(all);
    LabelledCells(u, fs);
    FirstRows(all.rows, u.rows, Labelled(u, fs).rows);
  }

  /** The row-by-row facts behind `AggregateFirstRows`, on the rows alone. */
  lemma FirstRows(all: seq<Row>, unique: seq<Row>, table: seq<Row>)
    requires |table| == |unique| && Keys(unique, LinkOf) == Keys(all, LinkOf)
    requires forall k :: 0 <= k < |unique| ==> exists i :: 0 <= i < |all| && all[i] == unique[k] && FirstOfKey(all, LinkOf, i)
    requires forall i :: 0 <= i < |table| ==> KeepsCells(table[i], unique[i]) && LinkOf(table[i]) == LinkOf(unique[i])
    ensures forall i :: 0 <= i < |table| ==> KeepsFirstRow(table[i], all)
    ensures Keys(table, LinkOf) == Keys(all, LinkOf)
  {
    forall i | 0 <= i < |table| ensures KeepsFirstRow(table[i], all) {
      var n :| 0 <= n < |all| && all[n] == unique[i] && FirstOfKey(all, LinkOf, n);
      assert KeepsCells(table[i], all[n]);
    }
    assert Keys(table, LinkOf) == Keys(unique, LinkOf);
  }

  /** No link is lost: the link of every collected row is the link of some row of the table. */
  lemma AggregateKeepsLinks(dfs: seq<Frame>, fs: Files, j: nat, k: nat)
    requires j < |dfs| && k < |dfs[j].rows| && "link" in dfs[j].columns && "link" in dfs[j].rows[k]
    ensures var r := Aggregate(dfs, fs);
      r.Ok? && exists i :: 0 <= i < |r.value.0.rows| && LinkOf(r.value.0.rows[i]) == dfs[j].rows[k]["link"]
  {
    var all := Concat(dfs);
    ConcatFacts(dfs);
    var row := Pad(dfs[j].rows[k], all.columns);
    assert row in all.rows;
    var n :| 0 <= n < |all.rows| && all.rows[n] == row;
    var unique := DropDuplicates(all).value;
    DropDuplicatesCorrect(all);
    DropDuplicatesWellFormed(all);
    assert LinkOf(all.rows[n]) in Keys(all.rows, LinkOf);
    var i :| 0 <= i < |unique.rows| && LinkOf(unique.rows[i]) == LinkOf(row);
    LabelledLinks(unique, fs);
  }

  /** The economic table is the rows of the whole table labelled 1, in their order, with the same columns. */
  lemma AggregateEconomic(dfs: seq<Frame>, fs: Files)
    ensures var r := Aggregate(dfs, fs);
      r.Ok? ==>
        r.value.1.columns == r.value.0.columns && IsSubsequence(r.value.1.rows, r.value.0.rows)
        && forall row :: row in r.value.1.rows <==> row in r.value.0.rows && IsEconomic(row)
  {
    var r := Aggregate(dfs, fs);
    if r.Ok? {
      EconomicRowsCorrect(r.value.0.rows);
    }
  }

  /** Without a model that has `predict`, every row is labelled -1 and nothing is economic. */
  lemma AggregateWithoutModel(dfs: seq<Frame>, fs: Files)
    requires LoadModelSafe(fs, ModelPath).None? || !LoadModelSafe(fs, ModelPath).value.hasPredict
    ensures var r := Aggregate(dfs, fs);
      r.Ok? ==> (forall k :: 0 <= k < |r.value.0.rows| ==> "label" in r.value.0.rows[k] && r.value.0.rows[k]["label"] == Int(-1))
                && r.value.1.rows == []
  {
    var r := Aggregate(dfs, fs);
    if r.Ok? {
      EconomicRowsCorrect(r.value.0.rows);
      if r.value.1.rows != [] {
        assert r.value.1.rows[0] in r.value.1.rows;
      }
    }
  }

  /** A DataFrame a portal runner contributes has a `link` column. */
  lemma PortalFrameHasLink(outcome: Result<seq<Record>, PyError>)
    ensures !IsEmpty(PortalFrame(outcome)) ==> "link" in PortalFrame(outcome).columns
  {
  }

  /** The position of each portal's block in the parser blocks. */
  function BlockIndex(p: Runner.Portal): (k: nat)
    ensures k < 4
  {
    match p
    case DetikNews => 0
    case RmolNews => 1
    case AntaraNews => 2
    case LampostNews => 3
  }

  /** The block of an imported portal offers the runner's DataFrame, and it is collected unless empty. */
  lemma PortalCollected(env: Runner.Env, src: Sources, cfg: Runner.Config, p: Runner.Portal)
    ensures var f := PortalFrame(Runner.RunSpec(p, env, cfg));
      var outcomes := Outcomes(env, src, cfg);
      outcomes[BlockIndex(p)] == PortalOutcome(p, env, src, cfg)
      && (p in src.imported && !IsEmpty(f) ==> f in Collect(outcomes) && "link" in f.columns)
  {
    CollectComplete(Outcomes(env, src, cfg), BlockIndex(p));
    PortalFrameHasLink(Runner.RunSpec(p, env, cfg));
  }

  /**
   * The aggregation raises a KeyError only when no portal runner contributed a row and
   * the radar parser's DataFrame, the only one collected, has no `link` column.
   */
  lemma ScrapeKeyError(env: Runner.Env, src: Sources, fs: Files, start: PyValue, end: PyValue, maxArticles: int)
    ensures var cfg := PortalConfig(start, end, maxArticles);
      ScrapeSpec(env, src, fs, start, end, maxArticles).Err? ==>
        (forall p :: p in src.imported ==> IsEmpty(PortalFrame(Runner.RunSpec(p, env, cfg))))
        && src.radar.Some? && !IsEmpty(TryCall(src.radar.value)) && "link" !in TryCall(src.radar.value).columns
  {
    var cfg := PortalConfig(start, end, maxArticles);
    var outcomes := Outcomes(env, src, cfg);
    var dfs := Collect(outcomes);
    AggregateErrors(dfs, fs);
    forall p ensures Aggregate(dfs, fs).Err? && p in src.imported ==> IsEmpty(PortalFrame(Runner.RunSpec(p, env, cfg))) {
      PortalCollected(env, src, cfg, p);
    }
    if Aggregate(dfs, fs).Err? {
      var j := 0;
      assert Some(dfs[j]) in outcomes;
      assert dfs[j] == TryCall(src.radar.value);
    }
  }

  /** When every imported runner raises or finds nothing and radar gives nothing, the result is two empty DataFrames. */
  lemma ScrapeNothingFound(env: Runner.Env, src: Sources, fs: Files, start: PyValue, end: PyValue, maxArticles: int)
    requires forall p :: p in src.imported ==>
               var run := Runner.RunSpec(p, env, PortalConfig(start, end, maxArticles)); run.Err? || run.value == []
    requires src.radar.None? || IsEmpty(TryCall(src.radar.value))
    ensures ScrapeSpec(env, src, fs, start, end, maxArticles) == Ok((Empty, Empty))
  {
    var cfg := PortalConfig(start, end, maxArticles);
    var outcomes := Outcomes(env, src, cfg);
    forall p ensures PortalOutcome(p, env, src, cfg).None? || IsEmpty(PortalOutcome(p, env, src, cfg).value) {
    }
    assert forall k :: 0 <= k < |outcomes| ==> outcomes[k].None? || IsEmpty(outcomes[k].value);
  }

  /**
   * The whole table has at most `max_articles` rows per portal, because each runner
   * stops at its cap, plus the rows of the radar parser.
   */
  lemma ScrapeRowBound(env: Runner.Env, src: Sources, fs: Files, start: PyValue, end: PyValue, maxArticles: int)
    ensures var r := ScrapeSpec(env, src, fs, start, end, maxArticles);
      r.Ok? ==>
        |r.value.0.rows| <= 4 * Runner.Max(0, maxArticles)
                            + match src.radar case None => 0 case Some(o) => |TryCall(o).rows|
  {
    var cfg := PortalConfig(start, end, maxArticles);
    var outcomes := Outcomes(env, src, cfg);
    var dfs := Collect(outcomes);
    AggregateTable(dfs, fs);
    CollectRows(outcomes);
    PortalRows(env, src, cfg);
    RowsOfferedBound(outcomes[..4], Runner.Max(0, maxArticles));
  }

  /** Each portal block offers no more rows than the runner's cap. */
  lemma PortalRows(env: Runner.Env, src: Sources, cfg: Runner.Config)
    ensures var outcomes := Outcomes(env, src, cfg);
      forall k :: 0 <= k < 4 && outcomes[k].Some? ==> |outcomes[k].value.rows| <= Runner.Max(0, cfg.maxArticles)
  {
    forall p ensures PortalOutcome(p, env, src, cfg).Some? ==> |PortalOutcome(p, env, src, cfg).value.rows| <= Runner.Max(0, cfg.maxArticles) {
      Runner.RunCap(p, env, cfg);
    }
  }

  /** The parser blocks of `scrape_dan_klasifikasi`: the `dfs` list they build. */
  method CollectFrames(env: Runner.Env, src: Sources, cfg: Runner.Config) returns (dfs: seq<Frame>)
    ensures dfs == Collect(Outcomes(env, src, cfg))
  {
    ghost var outcomes := Outcomes(env, src, cfg);
    var order := [Runner.DetikNews, Runner.RmolNews, Runner.AntaraNews, Runner.LampostNews];
    dfs := [];
    for i := 0 to |order|
      invariant dfs == Collect(outcomes[..i])
    {
      assert outcomes[i] == PortalOutcome(order[i], env, src, cfg);
      assert outcomes[..i + 1] == outcomes[..i] + [outcomes[i]];
      CollectSnoc(outcomes[..i], outcomes[i]);
      var got := PortalBlock(order[i], env, src, cfg);
      dfs := dfs + got;
    }
    assert outcomes == outcomes[..4] + [outcomes[4]];
    CollectSnoc(outcomes[..4], outcomes[4]);
    if src.radar.Some? {
      var df := TryCall(src.radar.value);
      if !IsEmpty(df) {
        dfs := dfs + [df];
      }
    }
  }

  /** One portal block: run the portal's parser when it was imported and keep its DataFrame unless it is empty. */
  method PortalBlock(p: Runner.Portal, env: Runner.Env, src: Sources, cfg: Runner.Config) returns (got: seq<Frame>)
    ensures got == Contribution(PortalOutcome(p, env, src, cfg))
  {
    got := [];
    if p in src.imported {
      var run := Runner.RunPortal(p, env, cfg);
      var df := PortalFrame(run);
      if !IsEmpty(df) {
        got := [df];
      }
    }
  }

  /** The rest of `scrape_dan_klasifikasi`, from the collected DataFrames. */
  method AggregateFrames(dfs: seq<Frame>, fs: Files) returns (r: Result<(Frame, Frame), Failure>)
    ensures r == Aggregate(dfs, fs)
  {
    if dfs == [] {
      return Ok((Empty, Empty));
    }
    var unique := DropDuplicates(Concat(dfs));
    if unique.Err? {
      return Err(unique.error);
    }
    var all := unique.value;
    var cols := RecordColumns;
    for i := 0 to |cols|
      invariant all == FillColumns(unique.value, cols[..i])
    {
      assert cols[..i + 1][..i] == cols[..i];
      if cols[i] !in all.columns {
        all := SetColumn(all, cols[i], seq(|all.rows|, _ => Str("")));
      }
    }
    assert cols[..|cols|] == RecordColumns;

    var model := LoadModelSafe(fs, ModelPath);
    all := SetColumn(all, "label", IntCells(Labels(model, Texts(all))));
    return Ok((all, Economic(all)));
  }

  /** `scrape_dan_klasifikasi(start_date, end_date, max_articles)`. */
  method ScrapeDanKlasifikasi(env: Runner.Env, src: Sources, fs: Files, start: PyValue, end: PyValue, maxArticles: int)
    returns (r: Result<(Frame, Frame), Failure>)
    ensures r == ScrapeSpec(env, src, fs, start, end, maxArticles)
  {
    var dfs := CollectFrames(env, src, PortalConfig(start, end, maxArticles));
    r := AggregateFrames(dfs, fs);
  }
}
