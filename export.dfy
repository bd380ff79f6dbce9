/** The export pipeline: the column selection and overwrite refusal of
    `write`, and the part of `main` that derives the output name, applies
    standardisation when an alias table was loaded, and writes. */
module Export {

  import opened Wrappers
  import opened SeqFilter
  import opened Headers
  import opened Slug

  /** The one fatal condition of `write`. */
  datatype WriteError = OutputExists(path: string)

  /** The warning logged for a requested name that is not a column. */
  function NoSuchColumn(k: string): string {
    "No such column " + k
  }

  /** `warnings` are the messages for `names`, one each, in the same order. */
  predicate WarnsFor(warnings: seq<string>, names: seq<string>) {
    |warnings| == |names| && forall i :: 0 <= i < |names| ==> warnings[i] == NoSuchColumn(names[i])
  }

  /** `k` is the data frame's index name. */
  predicate IsIndex(index: Option<string>, k: string) {
    index == Some(k)
  }

  /** `k != index_name`, for a named index. */
  function Differs(name: string): string -> bool {
    k => k != name
  }

  /** `k in df`: membership is tested against the column labels only. */
  function InColumns(cols: seq<string>): string -> bool {
    k => k in cols
  }

  function NotColumn(cols: seq<string>): string -> bool {
    k => k !in cols
  }

  function NotIndex(index: Option<string>): string -> bool {
    k => !IsIndex(index, k)
  }

  /** A requested name that ends up selected. */
  function Selectable(index: Option<string>, cols: seq<string>): string -> bool {
    k => !IsIndex(index, k) && k in cols
  }

  /** A requested name that draws a warning. */
  function Unknown(index: Option<string>, cols: seq<string>): string -> bool {
    k => !IsIndex(index, k) && k !in cols
  }

  /** The keys `write` selects: in one pass over the request, every name
      that is not the index name and is a column. */
  function Selection(keys: seq<string>, index: Option<string>, cols: seq<string>): (r: seq<string>)
    ensures forall k :: k in r ==> k in keys && !IsIndex(index, k) && k in cols
  {
    Filter(keys, Selectable(index, cols))
  }

  /** The names `write` warns about, in request order. */
  function UnknownNames(keys: seq<string>, index: Option<string>, cols: seq<string>): (r: seq<string>)
    ensures forall k :: k in r ==> k in keys && !IsIndex(index, k) && k !in cols
  {
    Filter(keys, Unknown(index, cols))
  }

  /** Lines 44-46: dropping the index name only when it is requested is the
      same as always dropping it. */
  lemma WithoutIndex(keys: seq<string>, index: Option<string>)
    ensures index.Some? && index.value in keys ==> Filter(keys, Differs(index.value)) == Filter(keys, NotIndex(index))
    ensures !(index.Some? && index.value in keys) ==> keys == Filter(keys, NotIndex(index))
  {
    if index.Some? && index.value in keys {
      FilterAgree(keys, Differs(index.value), NotIndex(index));
    } else {
      FilterAll(keys, NotIndex(index));
    }
  }

  /** The source filters twice: first the index name out, then the
      non-columns out (or in, for the warnings). */
  lemma TwoPass(keys: seq<string>, index: Option<string>, cols: seq<string>)
    ensures Filter(Filter(keys, NotIndex(index)), InColumns(cols)) == Selection(keys, index, cols)
    ensures Filter(Filter(keys, NotIndex(index)), NotColumn(cols)) == UnknownNames(keys, index, cols)
  {
    FilterThenFilter(keys, NotIndex(index), InColumns(cols), Selectable(index, cols));
    FilterThenFilter(keys, NotIndex(index), NotColumn(cols), Unknown(index, cols));
  }

  /** One turn of the warning loop of `write`. */
  lemma WarnStep(warnings: seq<string>, ks: seq<string>, i: nat, cols: seq<string>)
    requires i < |ks| && WarnsFor(warnings, Filter(ks[..i], NotColumn(cols)))
    ensures ks[i] !in cols ==> WarnsFor(warnings + [NoSuchColumn(ks[i])], Filter(ks[..i + 1], NotColumn(cols)))
    ensures ks[i] in cols ==> WarnsFor(warnings, Filter(ks[..i + 1], NotColumn(cols)))
  {
    var k := ks[i];
    assert ks[..i + 1] == ks[..i] + [k];
    FilterAppend(ks[..i], [k], NotColumn(cols));
    assert Filter([k], NotColumn(cols)) == if k !in cols then [k] else [];
  }

  /** Lines 44-50 of `write` without the file check: drop the index name,
      warn once per remaining name that is not a column, keep the rest. */
  method SelectColumns(index: Option<string>, cols: seq<string>, keys: seq<string>)
    returns (selected: seq<string>, warnings: seq<string>)
    ensures selected == Selection(keys, index, cols)
    ensures WarnsFor(warnings, UnknownNames(keys, index, cols))
  {
    var ks := keys;
    if index.Some? && index.value in ks {
      ks := Filter(ks, Differs(index.value));
    }
    WithoutIndex(keys, index);
    warnings := [];
    var i := 0;
    while i < |ks|
      invariant 0 <= i <= |ks|
      invariant WarnsFor(warnings, Filter(ks[..i], NotColumn(cols)))
    {
      WarnStep(warnings, ks, i, cols);
      if ks[i] !in cols {
        warnings := warnings + [NoSuchColumn(ks[i])];
      }
      i := i + 1;
    }
    assert ks[..i] == ks;
    TwoPass(keys, index, cols);
    selected := Filter(ks, InColumns(cols));
  }

  /** The selection is exactly the request less the index name and the
      names that are not columns: each kept name appears as often as it was
      requested, every other name not at all. */
  lemma SelectionCount(keys: seq<string>, index: Option<string>, cols: seq<string>, x: string)
    ensures multiset(Selection(keys, index, cols))[x] ==
      if !IsIndex(index, x) && x in cols then multiset(keys)[x] else 0
  {
    FilterCount(keys, Selectable(index, cols), x);
  }

  /** Selection keeps request order: it distributes over concatenation of
      requests. */
  lemma SelectionOrder(a: seq<string>, b: seq<string>, index: Option<string>, cols: seq<string>)
    ensures Selection(a + b, index, cols) == Selection(a, index, cols) + Selection(b, index, cols)
  {
    FilterAppend(a, b, Selectable(index, cols));
  }

  /** One warning per requested name other than the index name that is not a
      column, repeats included. */
  lemma UnknownNamesCount(keys: seq<string>, index: Option<string>, cols: seq<string>, x: string)
    ensures multiset(UnknownNames(keys, index, cols))[x] ==
      if !IsIndex(index, x) && x !in cols then multiset(keys)[x] else 0
  {
    FilterCount(keys, Unknown(index, cols), x);
  }

  /** The warnings come in request order. */
  lemma UnknownNamesOrder(a: seq<string>, b: seq<string>, index: Option<string>, cols: seq<string>)
    ensures UnknownNames(a + b, index, cols) == UnknownNames(a, index, cols) + UnknownNames(b, index, cols)
  {
    FilterAppend(a, b, Unknown(index, cols));
  }

  /** The default request is empty: nothing is selected and nothing warned
      about, so only the index is written. */
  lemma EmptyRequest(index: Option<string>, cols: seq<string>)
    ensures Selection([], index, cols) == [] && UnknownNames([], index, cols) == []
  {
  }

  /** The selection follows the request, not the data frame's column order. */
  lemma SelectionRequestOrderExample()
    ensures Selection(["RMS", "GR", "DEPT"], Some("DEPT"), ["GR", "RMS", "CALI"]) == ["RMS", "GR"]
  {
    var p := Selectable(Some("DEPT"), ["GR", "RMS", "CALI"]);
    assert p("RMS") && p("GR") && !p("DEPT");
    assert ["RMS", "GR", "DEPT"][1..] == ["GR", "DEPT"];
    assert ["GR", "DEPT"][1..] == ["DEPT"];
    assert ["DEPT"][1..] == [];
  }

  /** Lines 91-95 and 109 of `main`: the sanitised well name when it could
      be read, the raw input path otherwise, with `.csv` appended. */
  function OutputName(wellname: Option<string>, inputPath: string): (out: string)
    ensures |out| >= 4 && out[|out| - 4..] == ".csv"
    ensures wellname.None? ==> out[..|out| - 4] == inputPath
    ensures wellname.Some? ==>
      (|out| == |wellname.value| + 4
       && '/' !in out[..|out| - 4] && ' ' !in out[..|out| - 4]
       && Sluggify(out[..|out| - 4]) == Sluggify(wellname.value))
  {
    var name := if wellname.Some? then Sluggify(wellname.value) else inputPath;
    assert (name + ".csv")[..|name|] == name;
    assert wellname.Some? ==> Sluggify(name) == Sluggify(wellname.value) by {
      if wellname.Some? {
        SluggifyIdempotent(wellname.value);
      }
    }
    name + ".csv"
  }

  /** The warnings `main` logs before it writes: an unreadable well name,
      then an unreadable alias table. */
  function StartupWarnings(wellname: Option<string>, config: Result<AliasTable, string>): (r: seq<string>)
    ensures |r| == (if wellname.None? then 1 else 0) + (if config.Failure? then 1 else 0)
    ensures wellname.None? ==> r[0] == "Unable to fetch wellname"
    ensures config.Failure? ==> r[|r| - 1] == "Could not read config file: " + config.error
  {
    (if wellname.None? then ["Unable to fetch wellname"] else [])
    + (if config.Failure? then ["Could not read config file: " + config.error] else [])
  }

  /** The files present in the working directory. */
  class Directory {
    var files: set<string>

    constructor (files: set<string>)
      ensures this.files == files
    {
      this.files := files;
    }

    /** `write`: refuse an existing output name before doing anything;
        otherwise select the columns and create the file. */
    method Write(outname: string, df: DataFrame, keys: seq<string>)
      returns (r: Result<seq<string>, WriteError>, warnings: seq<string>)
      modifies this
      ensures outname in old(files) ==>
        r == Failure(OutputExists(outname)) && warnings == [] && files == old(files)
      ensures outname !in old(files) ==>
        r == Success(Selection(keys, df.indexName, df.columns))
        && WarnsFor(warnings, UnknownNames(keys, df.indexName, df.columns))
        && files == old(files) + {outname}
    {
      if outname in files {
        return Failure(OutputExists(outname)), [];
      }
      var selected;
      selected, warnings := SelectColumns(df.indexName, df.columns, keys);
      files := files + {outname};
      r := Success(selected);
    }
  }

  /** Lines 91-109 of `main`, once the input has been parsed: derive the
      output name, standardise the columns when a non-empty alias table was
      loaded, and write. The well name and the alias table come in as what
      their lookups produced. */
  method Run(dir: Directory, inputPath: string, wellname: Option<string>,
             config: Result<AliasTable, string>, df: DataFrame, keys: seq<string>)
    returns (r: Result<seq<string>, WriteError>, warnings: seq<string>)
    modifies dir, df
    ensures df.columns ==
      if config.Success? && config.value != [] then Relabel(old(df.columns), Invert(config.value))
      else old(df.columns)
    ensures var out := OutputName(wellname, inputPath);
      var startup := StartupWarnings(wellname, config);
      |warnings| >= |startup| && warnings[..|startup|] == startup
      && (out in old(dir.files) ==>
            r == Failure(OutputExists(out)) && warnings == startup && dir.files == old(dir.files))
      && (out !in old(dir.files) ==>
            r == Success(Selection(keys, df.indexName, df.columns))
            && WarnsFor(warnings[|startup|..], UnknownNames(keys, df.indexName, df.columns))
            && dir.files == old(dir.files) + {out})
  {
    var out := OutputName(wellname, inputPath);
    var startup := StartupWarnings(wellname, config);
    if config.Success? && config.value != [] {
      df.StandardizeColumns(config.value);
    }
    var more;
    r, more := dir.Write(out, df, keys);
    warnings := startup + more;
    assert warnings[|startup|..] == more;
  }

  /** Exporting twice to the same output name refuses the second run and
      leaves the directory as the first run left it. Each run builds its
      own data frame from the parsed labels, as each invocation of the
      program parses the input afresh. */
  method RunTwice(dir: Directory, inputPath: string, wellname: Option<string>,
                  config: Result<AliasTable, string>, index: Option<string>,
                  columns: seq<string>, keys: seq<string>)
    returns (second: Result<seq<string>, WriteError>)
    modifies dir
    ensures second == Failure(OutputExists(OutputName(wellname, inputPath)))
    ensures dir.files == old(dir.files) + {OutputName(wellname, inputPath)}
  {
    var df1 := new DataFrame(index, columns);
    var first, w1 := Run(dir, inputPath, wellname, config, df1, keys);
    var afterFirst := dir.files;
    var df2 := new DataFrame(index, columns);
    var w2;
    second, w2 := Run(dir, inputPath, wellname, config, df2, keys);
    assert dir.files == afterFirst;
  }
}
