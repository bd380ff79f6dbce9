# brb: well-log column standardisation and export, modelled in Dafny

brb reads a well-log (LAS) file and exports it as CSV. It names the output
after the well, with path-unsafe characters replaced. It can rename column
headers to canonical names taken from an alias table, and it can restrict
the export to a requested list of columns. It never overwrites an existing
file. This project models the logic in `brb/brb.py` around those steps:

- `slug.dfy` (module `Slug`): `_sluggify`, two single-character replacements.
- `headers.dfy` (module `Headers`): `_standardize_columns`. The alias table
  is an ordered sequence of (canonical name, aliases) pairs, because Python
  dictionaries iterate in insertion order. Its inversion into a flat
  alias-to-canonical map is a left fold (`InvertFrom`), so "the last entry
  listing an alias wins" is a theorem. A `DataFrame` class holds the index
  name and the column labels, which `StandardizeColumns` overwrites in place.
- `export.dfy` (module `Export`): the column selection and overwrite
  refusal of `write`, the output-name derivation of `main`, and `Run`, the
  part of `main` after parsing (lines 91-109). The working directory is a
  `Directory` object holding the set of existing file names.
- `seqfilter.dfy` (module `SeqFilter`): `Filter`, an order- and
  repetition-preserving filter that models the list comprehensions
  `[k for k in keys if ...]`, with its lemmas.
- `wrappers.dfy` (module `Wrappers`): `Option` and `Result`.

The index name is an `Option<string>`, because a data frame's index may be
unnamed; `None` is never among the requested keys. Warnings are returned as
a list of strings instead of being logged. The well-name lookup and the
alias-table load are parameters of `Run`: the well name is an
`Option<string>` (`None` when `wellname(las)` or `_sluggify` raises), and the
table is a `Result` whose failure carries the error message. A YAML file
that loads as nothing behaves like an empty table: both skip standardisation.

Behaviours of `write` and `main` that the model keeps as the code has them:

- `df[keys]` selects in list order, so the selection follows the request,
  repeats included, not the data frame's column order.
  `SelectionRequestOrderExample` shows this on the columns `GR, RMS, CALI`
  with index `DEPT` and the request `RMS, GR, DEPT`.
- With no `--headers` the request is the empty list (brb/brb.py:73), so
  `df[[]]` is written and the file holds only the index (brb/brb.py:51);
  `EmptyRequest` states that nothing is selected and nothing is warned about.
- When the well name cannot be read, the stem is the input path exactly as
  given (brb/brb.py:95), so the output name is that path plus `.csv`.
- The index name is dropped from the request only when it is requested
  (brb/brb.py:45-46), which `WithoutIndex` proves is the same as always
  dropping it.

## Model

| member | source | states |
|---|---|---|
| `Slug.Replace` | brb/brb.py:34 | `str.replace` of one character: same length; position i holds `to` where the input holds `from`, the input character elsewhere |
| `Slug.ReplaceAbsent` | brb/brb.py:34 | replacing a character that does not occur returns the input unchanged |
| `Slug.Sluggify` | brb/brb.py:33-34 | same length as the input; character i is `!` for `/`, `_` for a space, the input character otherwise; the result contains neither `/` nor a space |
| `Slug.SluggifyOrderIndependent` | brb/brb.py:34 | applying the space replacement before the slash replacement gives the same result |
| `Slug.SluggifySafeUnchanged` | brb/brb.py:34 | a name with no `/` and no space is returned unchanged |
| `Slug.SluggifyIdempotent` | brb/brb.py:34 | sanitising a sanitised name changes nothing |
| `Slug.SluggifySlashExample` | brb/brb.py:33-34 | `15/9-F-1` becomes `15!9-F-1` |
| `Slug.SluggifySpaceExample` | brb/brb.py:33-34 | `A B` becomes `A_B` |
| `Headers.AddAliases` | brb/brb.py:28 | one entry of the inversion: each of its aliases is bound to its canonical name; other bindings are kept; nothing else is bound |
| `Headers.Invert` | brb/brb.py:28 | the dict comprehension as a left fold of `AddAliases` over the entries in iteration order; every bound name maps to one of the table's canonical names (its full meaning is in InvertLastWins, InvertDomain, InvertValue) |
| `Headers.InvertLastWins` | brb/brb.py:28 | an alias whose last listing is the entry at j maps to that entry's canonical name, whatever earlier entries list it |
| `Headers.InvertDomain` | brb/brb.py:28 | a name is in the inverted map if and only if some entry lists it as an alias; a name listed by no entry is absent |
| `Headers.InvertValue` | brb/brb.py:28 | every value of the inverted map is the canonical name of an entry listing the key |
| `Headers.Relabel` | brb/brb.py:29 | same length as the labels; position i holds `conf.get(cols[i], cols[i])` |
| `Headers.StandardizedLabel` | brb/brb.py:28-29 | each standardised label is the original label or the canonical name of an entry that lists the original label |
| `Headers.StandardizeNoMatch` | brb/brb.py:28-29 | a table in which no entry lists any label (the empty table included) leaves the labels unchanged |
| `Headers.StandardizeIdempotent` | brb/brb.py:28-29 | standardising twice equals standardising once, when every entry listing a canonical name as an alias is an entry for that name |
| `Headers.DataFrame.StandardizeColumns` | brb/brb.py:15-31 | the new column labels are the old ones relabelled through the inverted table; the index name is unchanged |
| `Export.WithoutIndex` | brb/brb.py:44-46 | dropping the index name only when it is requested equals filtering it out unconditionally |
| `Export.Selection` | brb/brb.py:44-50 | every selected key was requested, is not the index name and is a column |
| `Export.UnknownNames` | brb/brb.py:47-49 | every name warned about was requested, is not the index name and is not a column |
| `Export.TwoPass` | brb/brb.py:44-50 | filtering out the index name and then keeping columns (or non-columns) equals the one-pass selection (or warning list) |
| `Export.SelectColumns` | brb/brb.py:44-50 | returns exactly the one-pass selection, and one `No such column` warning per unknown name, in request order |
| `Export.SelectionCount` | brb/brb.py:44-50 | each name occurs in the selection as often as it was requested if it is a column other than the index name, and not at all otherwise |
| `Export.SelectionOrder` | brb/brb.py:44-50 | the selection of a concatenated request is the concatenation of the selections, so request order is kept |
| `Export.UnknownNamesCount` | brb/brb.py:47-49 | one warning per request of a non-index name that is not a column, repeats included, none for any other name |
| `Export.UnknownNamesOrder` | brb/brb.py:47-49 | warnings of a concatenated request are the concatenation of the warnings, so they follow request order |
| `Export.SelectionRequestOrderExample` | brb/brb.py:50-51 | requesting `RMS, GR, DEPT` with index `DEPT` selects `RMS, GR`, in request order |
| `Export.OutputName` | brb/brb.py:91-95 | the name ends in `.csv` (line 109); with a well name, the stem has the well name's length, no `/`, no space, and sanitises to the same stem; without one, the stem is the raw input path |
| `Export.StartupWarnings` | brb/brb.py:93-104 | at most the two warnings `main` logs before writing: `Unable to fetch wellname` first when the well name is missing, then `Could not read config file:` with the error when the alias table failed to load |
| `Export.EmptyRequest` | brb/brb.py:44-51 | the default empty request selects nothing and warns about nothing, so only the index is written |
| `Export.Directory.Write` | brb/brb.py:41-52 | an existing output name fails with `OutputExists`, no warnings and no change to the files; otherwise it returns the selection and its warnings, and the output file is added |
| `Export.Run` | brb/brb.py:91-109 | columns are standardised only for a loaded non-empty table; startup warnings come first; the write outcome refers to the derived output name |
| `Export.RunTwice` | brb/brb.py:42-43 | a second export to the same name is refused, and the files are as the first run left them |

## Left out

- Reading the input: the existence check, the argument parser and LAS parsing through `lasio` (brb/brb.py:55-89). They are command-line plumbing and a library this model cannot see. `Run` starts from their results.
- The use of `fname` before it is assigned at brb/brb.py:81, which raises a `NameError` on the missing-input path. It belongs to the plumbing above.
- Locating and parsing the alias-table YAML file through `pkg_resources` and `yaml` (brb/brb.py:97-104). Their outcome is the `config` parameter of `Run`.
- `wellname` (brb/brb.py:37-38), a header lookup in the parsed LAS object. Its outcome is the `wellname` parameter of `Run`.
- The CSV text that `to_csv` writes, the "wrote N rows" message, cell values and row counts (brb/brb.py:51-52). Only column labels, the index name and the existence of the output file are modelled.
- `exit` and `logging`: a fatal exit is a `Failure` result, and warnings are returned strings.
- Alias-table shapes other than a mapping from names to lists of names: a value that is a bare string (Python would iterate over its characters), a `null` value, or a top-level list or scalar. `AliasTable` excludes them. All but the bare string make brb/brb.py:28 raise outside any `try`, so the program crashes there instead of skipping standardisation.
- `Export.Directory.Write` returns the selected keys, not the written columns. When two aliases of one canonical name are both columns, standardisation yields a repeated label (`GR, GAMMA` under the entry `GR: [GAMMA]` becomes `GR, GR`), and `df[["GR"]]` then writes both columns. The model does not track which data frame columns a key selects.
- `setup.py`: packaging metadata with no logic.
