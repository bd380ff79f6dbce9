/** Header standardisation (`_standardize_columns`): an alias table lists,
    for each canonical column name, the alternative names it replaces. The
    table is inverted into a flat alias-to-canonical map, and every column
    label found in that map is replaced by its canonical name. */
module Headers {

  import opened Wrappers

  /** The alias table in the order its entries are iterated: pairs of a
      canonical name and the aliases listed under it. */
  type AliasTable = seq<(string, seq<string>)>

  /** `conf.get(k, k)`: the mapped name if there is one, `k` otherwise. */
  function Get(m: map<string, string>, k: string): string {
    if k in m then m[k] else k
  }

  /** One step of the inversion: every alias of `canonical` is (re)bound to
      it, in list order; other bindings are kept. */
  function AddAliases(m: map<string, string>, canonical: string, aliases: seq<string>): (r: map<string, string>)
    ensures forall a :: a in aliases ==> a in r && r[a] == canonical
    ensures forall a :: a in m && a !in aliases ==> a in r && r[a] == m[a]
    ensures forall a :: a in r ==> a in m || a in aliases
    decreases |aliases|
  {
    if aliases == [] then m
    else AddAliases(m[aliases[0] := canonical], canonical, aliases[1..])
  }

  /** The dictionary comprehension `{i: k for k, v in conf.items() for i in v}`
      as a left fold over the entries, starting from the bindings in `m`. */
  function InvertFrom(m: map<string, string>, conf: AliasTable): map<string, string>
    decreases |conf|
  {
    if conf == [] then m
    else InvertFrom(AddAliases(m, conf[0].0, conf[0].1), conf[1..])
  }

  /** The flat alias-to-canonical map of an alias table: a left fold of
      `AddAliases` over the entries in iteration order. Every name it binds
      is bound to one of the table's canonical names. */
  function Invert(conf: AliasTable): (r: map<string, string>)
    ensures forall a :: a in r ==> exists j :: 0 <= j < |conf| && r[a] == conf[j].0
  {
    var r := InvertFrom(map[], conf);
    assert forall a :: a in r ==> exists j :: 0 <= j < |conf| && r[a] == conf[j].0 by {
      forall a | a in r ensures exists j :: 0 <= j < |conf| && r[a] == conf[j].0 {
        FoldOrigin(map[], conf, a);
      }
    }
    r
  }

  /** A name listed by no entry keeps whatever binding it had. */
  lemma {:induction false} FoldKeeps(m: map<string, string>, conf: AliasTable, a: string)
    requires forall j :: 0 <= j < |conf| ==> a !in conf[j].1
    ensures (a in InvertFrom(m, conf)) == (a in m)
    ensures a in m ==> InvertFrom(m, conf)[a] == m[a]
    decreases |conf|
  {
    if conf != [] {
      assert a !in conf[0].1;
      FoldKeeps(AddAliases(m, conf[0].0, conf[0].1), conf[1..], a);
    }
  }

  /** The entry at `j` is the last one listing `a`, so its binding survives. */
  lemma {:induction false} FoldLastWins(m: map<string, string>, conf: AliasTable, a: string, j: nat)
    requires j < |conf| && a in conf[j].1
    requires forall j' :: j < j' < |conf| ==> a !in conf[j'].1
    ensures a in InvertFrom(m, conf) && InvertFrom(m, conf)[a] == conf[j].0
    decreases |conf|
  {
    var m' := AddAliases(m, conf[0].0, conf[0].1);
    if j == 0 {
      forall j' | 0 <= j' < |conf[1..]| ensures a !in conf[1..][j'].1 {
        assert conf[1..][j'] == conf[j' + 1];
      }
      FoldKeeps(m', conf[1..], a);
    } else {
      forall j' | j - 1 < j' < |conf[1..]| ensures a !in conf[1..][j'].1 {
        assert conf[1..][j'] == conf[j' + 1];
      }
      FoldLastWins(m', conf[1..], a, j - 1);
    }
  }

  /** Every binding of the fold was there at the start or comes from an
      entry that lists the name. */
  lemma {:induction false} FoldOrigin(m: map<string, string>, conf: AliasTable, a: string)
    requires a in InvertFrom(m, conf)
    ensures (a in m && InvertFrom(m, conf)[a] == m[a])
         || exists j :: 0 <= j < |conf| && a in conf[j].1 && InvertFrom(m, conf)[a] == conf[j].0
    decreases |conf|
  {
    if conf != [] {
      var m' := AddAliases(m, conf[0].0, conf[0].1);
      FoldOrigin(m', conf[1..], a);
      if a in m' && InvertFrom(m', conf[1..])[a] == m'[a] {
        if a in conf[0].1 {
          assert a in conf[0].1 && InvertFrom(m, conf)[a] == conf[0].0;
        }
      } else {
        var j :| 0 <= j < |conf[1..]| && a in conf[1..][j].1 && InvertFrom(m', conf[1..])[a] == conf[1..][j].0;
        assert conf[1..][j] == conf[j + 1];
      }
    }
  }

  /** A name listed by some entry is bound by the fold. */
  lemma {:induction false} FoldCovers(m: map<string, string>, conf: AliasTable, a: string, j: nat)
    requires j < |conf| && a in conf[j].1
    ensures a in InvertFrom(m, conf)
    decreases |conf|
  {
    var m' := AddAliases(m, conf[0].0, conf[0].1);
    if j == 0 {
      if a in m' {
        if exists j' :: 0 <= j' < |conf[1..]| && a in conf[1..][j'].1 {
          var j' :| 0 <= j' < |conf[1..]| && a in conf[1..][j'].1;
          FoldCovers(m', conf[1..], a, j');
        } else {
          FoldKeeps(m', conf[1..], a);
        }
      }
    } else {
      assert conf[1..][j - 1] == conf[j];
      FoldCovers(m', conf[1..], a, j - 1);
    }
  }

  /** Last entry wins: an alias listed under several canonical names is
      sent to the one whose entry comes last in iteration order. */
  lemma InvertLastWins(conf: AliasTable, a: string, j: nat)
    requires j < |conf| && a in conf[j].1
    requires forall j' :: j < j' < |conf| ==> a !in conf[j'].1
    ensures a in Invert(conf) && Invert(conf)[a] == conf[j].0
  {
    FoldLastWins(map[], conf, a, j);
  }

  /** The inverted map is defined exactly on the names that some entry
      lists as an alias. */
  lemma InvertDomain(conf: AliasTable, a: string)
    ensures a in Invert(conf) <==> exists j :: 0 <= j < |conf| && a in conf[j].1
  {
    if a in Invert(conf) {
      FoldOrigin(map[], conf, a);
    }
    if j :| 0 <= j < |conf| && a in conf[j].1 {
      FoldCovers(map[], conf, a, j);
    }
  }

  /** Every value of the inverted map is the canonical name of an entry
      that lists the key as an alias. */
  lemma InvertValue(conf: AliasTable, a: string)
    requires a in Invert(conf)
    ensures exists j :: 0 <= j < |conf| && a in conf[j].1 && Invert(conf)[a] == conf[j].0
  {
    FoldOrigin(map[], conf, a);
  }

  /** `[conf.get(k, k) for k in cols]`: the labels, each replaced by its
      mapped name when it has one. */
  function Relabel(cols: seq<string>, m: map<string, string>): (r: seq<string>)
    ensures |r| == |cols|
    ensures forall i :: 0 <= i < |cols| ==> r[i] == Get(m, cols[i])
  {
    if cols == [] then []
    else [Get(m, cols[0])] + Relabel(cols[1..], m)
  }

  /** Each standardised label is the original label, or the canonical name
      of an entry that lists the original label as an alias. */
  lemma StandardizedLabel(cols: seq<string>, conf: AliasTable, i: nat)
    requires i < |cols|
    ensures var r := Relabel(cols, Invert(conf));
      r[i] == cols[i] || exists j :: 0 <= j < |conf| && cols[i] in conf[j].1 && r[i] == conf[j].0
  {
    if cols[i] in Invert(conf) {
      InvertValue(conf, cols[i]);
    }
  }

  /** An alias table of which no entry lists any of the labels (the empty
      table in particular) leaves the labels as they are. */
  lemma StandardizeNoMatch(cols: seq<string>, conf: AliasTable)
    requires forall i, j :: 0 <= i < |cols| && 0 <= j < |conf| ==> cols[i] !in conf[j].1
    ensures Relabel(cols, Invert(conf)) == cols
  {
    var r := Relabel(cols, Invert(conf));
    forall i | 0 <= i < |cols| ensures r[i] == cols[i] {
      InvertDomain(conf, cols[i]);
    }
  }

  /** Standardising twice is standardising once, provided every entry that
      lists a canonical name as an alias is an entry for that same name. */
  lemma StandardizeIdempotent(cols: seq<string>, conf: AliasTable)
    requires forall j, j' :: 0 <= j < |conf| && 0 <= j' < |conf| && conf[j].0 in conf[j'].1 ==> conf[j'].0 == conf[j].0
    ensures Relabel(Relabel(cols, Invert(conf)), Invert(conf)) == Relabel(cols, Invert(conf))
  {
    var m := Invert(conf);
    var r := Relabel(cols, m);
    var rr := Relabel(r, m);
    forall i | 0 <= i < |cols| ensures rr[i] == r[i] {
      if cols[i] in m {
        InvertValue(conf, cols[i]);
        var j :| 0 <= j < |conf| && cols[i] in conf[j].1 && m[cols[i]] == conf[j].0;
        if r[i] in m {
          InvertValue(conf, r[i]);
        }
      }
    }
  }

  /** A data frame's labels: the index name (absent when the index is
      unnamed) and the column labels, which standardisation overwrites. */
  class DataFrame {
    const indexName: Option<string>
    var columns: seq<string>

    constructor (indexName: Option<string>, columns: seq<string>)
      ensures this.indexName == indexName && this.columns == columns
    {
      this.indexName := indexName;
      this.columns := columns;
    }

    /** `_standardize_columns`: relabel every column through the inverted
        alias table, in place. */
    method StandardizeColumns(conf: AliasTable)
      modifies this
      ensures columns == Relabel(old(columns), Invert(conf))
    {
      var m := Invert(conf);
      columns := Relabel(columns, m);
    }
  }
}
