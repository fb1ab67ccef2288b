# Salesforce-to-Snowflake staging generator: a Dafny model

The system is a two-stage pipeline. It extracts the field list of one
Salesforce object and generates Terraform for an AWS AppFlow flow. The flow
copies that object into a Snowflake staging table.

- **Extraction stage (`sobject.py`):**
  - Reads each field's API name and native `DataType` label.
  - Drops a fixed list of system fields.
  - Classifies each remaining label twice, through two ordered chains of
    equality and prefix tests. One chain gives a *source* type, the other
    a coarser *destination* type.
  - Writes one record per field.
- **Generation stage (`terraform.py`):**
  - Turns those records into one flow resource, with one Map task per field
    and a Filter task projecting every field.
  - Turns them into one table resource, with one column per field. Each
    column's storage type is looked up from the destination type.

The model has four modules plus a shared wrapper module:

- `Wrappers` (`wrappers.dfy`):
  - `Option` and `Result`.
  - The two ways a run aborts: an unknown native label, or a missing
    storage-type key.
  - `MapAll`, the list comprehension whose body may raise.
- `Text` (`text.dfy`): the parts of Python's `str` that the code uses:
  - `index` as `IndexOf`;
  - clamped slicing as `Slice`;
  - `startswith` as `StartsWith`;
  - `upper` and `lower`, restricted to ASCII.
- `Classify` (`classify.dfy`): `xfm_source_datatype` and
  `xfm_dest_datatype`.
  - The 28 tests are a `Rule` datatype, ranked in chain order.
  - `MatchedRule` is the first rule whose test a label passes.
  - `FirstPassed` is an independent reference meaning of "first match
    wins". `FirstMatchWins` proves that the two agree.
  - `SourceType` and `DestType` are the two chains. Each is built from the
    matched rule, plus the `Formula` recursion and its bare `except`, which
    falls back to the `REPLACE_ME` sentinel.
- `Records` (`records.dfy`):
  - `ignored_row` is `IgnoredRow`.
  - The per-field dictionary is `BuildRecord`.
  - `prepare_rows` is `PrepareRows`, which filters with `Kept` and then
    collects with `MapAll`.
- `Terraform` (`terraform.dfy`):
  - `_DATABASE_DATATYPE_MAPPING` is `DatabaseDatatypeMapping`. `ColumnType`
    looks it up and fails with a `KeyError` when the key is missing.
  - `generate_terraform` is `GenerateTerraform`. It builds the
    row-dependent structure of the output: resource names, the source and
    destination objects, the Map tasks, the Filter field list, and the
    table's columns.
  - The first column whose lookup fails aborts the whole rendering.

Some members carry no contract of their own, so the table below does not
list them; the lemmas named here state what they hold:

- `IgnoredFields`: stated by `IgnoredRow` and `IgnoredRowIffSystemField`.
- `DatabaseDatatypeMapping`: stated by `StorageTableShape`,
  `DestTokenStorageTypes` and `OtherKeyStorageTypes`.
- `StartsWith`: stated by `StartsWithIsPrefix`.

A Python exception that aborts the run becomes `Err`. An exception the
code catches becomes the value the handler returns.

## Model

| member | source | states |
|---|---|---|
| Text.IndexOf | sobject.py:140 | `str.index`: the result is the position of the first occurrence of the character; `None` (Python's `ValueError`) exactly when the character is absent |
| Text.Slice | sobject.py:140 | Python slicing with non-negative bounds: both bounds clamp to the length, an end not after the start gives the empty string, and each character is the source character at the offset |
| Text.IndexOfAt | sobject.py:140 | `str.index` finds a character right after a prefix that does not contain it |
| Text.StartsWithIsPrefix | sobject.py:119 | the character-wise `startswith` test is exactly the prefix relation on strings |
| Text.Upper | terraform.py:105 | `str.upper` on ASCII: same length; each lower-case letter becomes its capital (32 code points lower) and every other character is unchanged |
| Text.UpperOfLower | terraform.py:105 | upper-casing undoes lower-casing: a string and its lower-cased form have the same upper-cased form |
| Text.Lower | terraform.py:61 | `str.lower` on ASCII: same length; each capital becomes its lower-case letter (32 code points higher) and every other character is unchanged |
| Text.LowerOfUpper | terraform.py:61 | lower-casing undoes upper-casing: a string and its upper-cased form have the same lower-cased form |
| Text.LowerIdempotent | terraform.py:61 | lower-casing a lower-cased string changes nothing |
| Wrappers.MapAll | sobject.py:105-113 | a comprehension whose body may raise, when it completes, has one result per input element |
| Wrappers.MapAllOutcome | sobject.py:105-113 | a comprehension whose body may raise succeeds exactly when every element's computation succeeds, and otherwise reports the failure of the first element that fails |
| Classify.FormulaArgument | sobject.py:140 | the argument exists exactly when both parentheses occur (neither `index` call raises); it is shorter than the label, so the recursion terminates, and contains no `)`. Its text is fixed by `Classify.FormulaArgumentOf` and `Classify.FormulaArgumentCloseFirst` |
| Classify.FormulaArgumentOf | sobject.py:140 | for every label `P(X)Q` with no parenthesis in `P` and no `)` in `X`, the argument is exactly `X`, whatever text follows |
| Classify.FormulaArgumentCloseFirst | sobject.py:140 | when the first `)` precedes the first `(`, the slice is empty and the argument is the empty string |
| Classify.Recovered | sobject.py:138-142 | the bare `except` around the Formula recursion: an inner success is returned unchanged, any inner failure becomes `REPLACE_ME` |
| Classify.SourceToken | sobject.py:116-176 | every token a non-Formula branch of the source chain returns belongs to the source vocabulary |
| Classify.DestToken | sobject.py:183-243 | every token a non-Formula branch of the destination chain returns belongs to the destination vocabulary |
| Classify.SourceType | sobject.py:116-180 | the source chain returns a token of the source vocabulary, or raises an error naming the label verbatim |
| Classify.DestType | sobject.py:183-245 | the destination chain returns a token of the destination vocabulary, or raises an error naming the label verbatim |
| Classify.TestOf | sobject.py:116-176 | each rule's test is an equality or `startswith` test against a non-empty literal |
| Classify.Rank | sobject.py:116-176 | the position of each rule's test in the chain lies within the 28 tests |
| Classify.MatchedRule | sobject.py:116-176 | the rule the chain fires is one whose test the label passes; `Classify.FirstMatchWins` adds that every earlier test fails |
| Classify.MatchedIsFirstPassed | sobject.py:116-176 | the rule the chain fires is one whose test the label passes, and the label fails every test tried before it |
| Classify.FirstPassedIsMatched | sobject.py:116-176 | a rule whose test the label passes, after failing every earlier test, is the rule the chain fires |
| Classify.FirstMatchWins | sobject.py:116-176 | both directions: the chain fires a rule exactly when that rule is the first one whose test the label passes |
| Classify.NoMatchMeansNoTest | sobject.py:175-180 | the chain falls through to the raise exactly when the label passes none of the 28 tests |
| Classify.FormulaRuleIffPrefix | sobject.py:137 | the Formula branch is taken exactly for labels starting with `Formula`; no earlier test can intercept them |
| Classify.TokensOfFirstPassed | sobject.py:116-245 | outside the Formula branch, both chains return the token of the first rule whose test the label passes |
| Classify.RaisesIffNoTest | sobject.py:178-180 | each chain raises exactly on the labels that pass none of the 28 tests; a Formula label never raises |
| Classify.TokensOfMatch | sobject.py:116-245 | outside the Formula branch, both chains return the token of the rule that fired |
| Classify.DestIsCoarsenedSource | sobject.py:116-245 | for every label, including nested Formulas, both chains raise together, and the destination type is the fixed coarsening of the source type |
| Classify.SameLabelsAccepted | sobject.py:116-245 | the two chains accept exactly the same labels and raise the same error on the others |
| Classify.ReplaceMeAgrees | sobject.py:116-245 | a field needs manual review on the source side exactly when it does on the destination side |
| Classify.PicklistLabels | sobject.py:159-160 | every label starting with `Picklist` is `PICKLIST` in the source vocabulary and `STRING` in the destination vocabulary |
| Classify.MultiSelectPicklistIsPicklist | sobject.py:159-162 | the label `Picklist (Multi-Select)` is caught by the earlier `Picklist` prefix test: `PICKLIST` and `STRING` |
| Classify.MultiSelectRuleUnreachable | sobject.py:159-162 | the multi-select equality test never fires for any label |
| Classify.MultiPicklistUnreachable | sobject.py:137-162 | no label, Formula or not, is ever classified `MULTIPICKLIST` |
| Classify.TextAreaBeforeText | sobject.py:171-174 | a `Text Area` label is a text area (`TEXTAREA`, stored as `STRING`), not the plain text its `Text` prefix would also match |
| Classify.RollUpNeedsReview | sobject.py:169-170 | every `Roll-Up` label needs manual review in both vocabularies |
| Classify.FormulaArgumentOfWrapped | sobject.py:139-140 | for `Formula (X)` with no `)` inside `X`, the extracted argument is exactly `X` |
| Classify.FormulaUnwraps | sobject.py:137-142 | `Formula (X)` is classified as `X` is, and as `REPLACE_ME` when `X` is not recognised, in both chains |
| Classify.FormulaUnwrapsAround | sobject.py:137-142 | any label `P(X)Q` with `P` starting with `Formula`, no parenthesis in `P` and no `)` in `X` is classified as `X` is, or as `REPLACE_ME` when `X` is not recognised, in both chains; the text after the first `)` is ignored |
| Classify.FormulaOfRecognized | sobject.py:137-142 | wrapping a recognised type in a Formula does not change either classification |
| Classify.FormulaCloseFirstNeedsReview | sobject.py:137-142 | a `Formula` label whose first `)` comes before its first `(` classifies its empty argument, which raises, so both chains give `REPLACE_ME` |
| Classify.FormulaNeverRaises | sobject.py:137-142 | a `Formula` label never raises; when it lacks a `(` or a `)`, so that one of the `index` calls raises, it needs manual review in both vocabularies |
| Classify.EmptyLabelRaises | sobject.py:116-180 | the empty label passes no test, and both chains raise on it |
| Classify.UnknownLabelRaises | sobject.py:178-180 | a label of no known type (`Foo`) makes both chains raise, naming the label |
| Classify.CurrencyLabels | sobject.py:125-126 | every label starting with `Currency` is `CURRENCY`, stored as `FLOAT` |
| Classify.CurrencyExample | sobject.py:125-126 | `Currency(18, 2)` is `CURRENCY` / `FLOAT` |
| Classify.FormulaOfCurrency | sobject.py:137-142 | a Formula wrapping any label that starts with `Currency` (and holds no `)`) is `CURRENCY` / `FLOAT` |
| Classify.FormulaCurrencyExample | sobject.py:137-142 | `Formula (Currency)` is classified as a currency in both vocabularies |
| Records.IgnoredRow | sobject.py:99-101 | a row is ignored exactly when its name is `LastReferencedDate`, `LastViewedDate` or `UserRecordAccessId` |
| Records.IgnoredRowIffSystemField | sobject.py:30-33 | with no ignored native types, a row is ignored exactly when its name is one of the three system fields, and changing its native type never changes that |
| Records.BuildRecord | sobject.py:106-111 | a record exists exactly when the source chain accepts the label. Its name and native label are copied, and its two types are the chains' answers. Otherwise the error is the unknown label |
| Records.BuiltRecordWellTyped | sobject.py:106-111 | every built record has types from both vocabularies, and its destination type is the coarsening of its source type |
| Records.Kept | sobject.py:112 | the filter never lengthens the list and keeps no ignored row |
| Records.KeptMembers | sobject.py:112 | a row survives the filter exactly when it is in the input and is not ignored |
| Records.KeptAppend | sobject.py:112 | filtering a concatenation filters each part, in order |
| Records.KeptIsFixed | sobject.py:112 | filtering twice is filtering once |
| Records.PrepareRows | sobject.py:104-113 | a successful batch has one record per kept row |
| Records.PrepareRowsDescribesKept | sobject.py:104-113 | record `k` of a successful batch is the record of kept row `k` |
| Records.PrepareRowsOutcome | sobject.py:104-113 | a batch succeeds exactly when every kept row is recognised; otherwise it reports the unknown label of the first unrecognised kept row, all earlier kept rows being recognised |
| Records.PreparedRecordsWellTyped | sobject.py:104-113 | every prepared record is well typed and never describes a system field |
| Records.OnlyKeptRowsMatter | sobject.py:112 | ignored rows are never classified: the batch depends on the kept rows alone |
| Records.SystemFieldsDropped | sobject.py:30-33 | a system field is dropped whatever its native label, even one no test recognises |
| Records.PrepareRowsAppend | sobject.py:104-113 | when two batches both succeed, the joined batch succeeds with their records concatenated, in order |
| Records.CurrencyRecordExample | sobject.py:106-111 | the record of `Amount__c` with `Currency(18, 2)` |
| Records.PrepareRowsAfterIgnored | sobject.py:112 | an ignored row followed by a kept row gives exactly the kept row's record, whatever the ignored row's label |
| Records.PrepareRowsExample | sobject.py:104-113 | an ignored audit field with a nonsense label, followed by a currency field, gives exactly the currency record |
| Terraform.StorageTableShape | terraform.py:28-37 | the storage table has exactly eight keys: every destination token except `REPLACE_ME`, plus `CURRENCY` and `TEXT`, which the destination chain never yields; its values are exactly the six Snowflake types |
| Terraform.ColumnType | terraform.py:164 | the lookup succeeds exactly when the upper-cased destination type is a key, and then yields that key's table entry, one of the six Snowflake types; otherwise it fails with a `KeyError` naming the upper-cased key |
| Terraform.ColumnTypeIgnoresCase | terraform.py:164 | the lookup gives the same answer for a destination type and for its upper-cased form |
| Terraform.DestTokensHaveStorage | terraform.py:28-37 | every destination token has a storage type except `REPLACE_ME`, whose lookup fails with a `KeyError` |
| Terraform.DestTokenStorageTypes | terraform.py:28-37 | the storage type of each non-sentinel destination token: `BOOLEAN`, `DATE`, `TIMESTAMP_NTZ(9)` for `DATETIME`, `FLOAT`, `NUMBER(38,0)` for `NUMBER`, `VARCHAR` for `STRING` |
| Terraform.OtherKeyStorageTypes | terraform.py:28-37 | the two keys the destination chain never yields: `CURRENCY` is stored as `FLOAT` and `TEXT` as `VARCHAR` |
| Terraform.TaskOf | terraform.py:102-117 | a Map task reads exactly the row's field, writes a destination field that is that name in capitals (same length, equal to it up to case), and carries both data types verbatim |
| Terraform.ColumnOf | terraform.py:160-165 | a column exists exactly when the upper-cased destination type is a key; it is named after the upper-cased field and typed by the table's entry, else the error is a `KeyError` naming the key |
| Terraform.GenerateTerraform | terraform.py:54-169 | a successful rendering has one Map task, one Filter entry and one column per row |
| Terraform.RenderingOutcome | terraform.py:160-165 | rendering succeeds exactly when every row's upper-cased destination type is a key; otherwise it reports the `KeyError` of the first row without one, all earlier rows having a storage type |
| Terraform.FlowFollowsRows | terraform.py:102-127 | Map task `k` writes the upper-cased field name of row `k`, reads that field, and carries both data types verbatim; Filter entry `k` is row `k`'s field name |
| Terraform.TableFollowsRows | terraform.py:160-165 | column `k` is named after row `k`'s upper-cased field, and its type is the storage type of row `k`'s destination type |
| Terraform.FlowTargetsTableColumns | terraform.py:102-165 | Map task `k` writes exactly column `k` of the table, and reads exactly the field listed at position `k` of the Filter task |
| Terraform.RenderingNames | terraform.py:61-157 | both resources are named `salesforce_` plus the lower-cased object; the flow reads the object itself and writes the staging-schema table whose name is the upper-cased object; the start time is the one given |
| Terraform.PreparedRowsRender | terraform.py:160-165 | the records of a prepared batch render exactly when none of them needs manual review |
| Terraform.ReviewRowBlocksRendering | terraform.py:164 | one row whose destination type is `REPLACE_ME` makes the whole rendering fail |
| Terraform.RenderingExample | terraform.py:54-169 | the resources for the currency field `Amount__c` of `Account`: flow `salesforce_account`, Map task `AMOUNT__C`, Filter list `Amount__c`, column `AMOUNT__C` of type `FLOAT` |

The label `Picklist (Multi-Select)` is caught by the earlier `Picklist`
prefix test, so the model classifies it as `PICKLIST` and `STRING`.
`Classify.MultiSelectPicklistIsPicklist` proves this, and
`Classify.MultiPicklistUnreachable` proves that the later multi-select test
can never fire. The chain's own `MULTIPICKLIST` branch suggests that
token was meant for this label, but the code never returns it, and the
model follows the code.

The token `PRECENT` is kept as the source chain spells it.

## Left out

- `get_sobject_desc`: the Salesforce metadata query and its credentials.
  These are network I/O. The model starts from the list of
  `QualifiedApiName`/`DataType` pairs.
- `create_csv` and the CSV reading in `terraform.py`'s `main`: file I/O.
  A `FieldRecord` stands for one CSV row, with the same four columns.
- Both `main` functions: argument handling and printing. This includes the
  object name taken from the file name before its first `.`, and the
  debugging dump when `prepare_rows` raises.
- The schedule start time. `terraform.py:142-144` derives it from the
  clock (tomorrow at 08:00 UTC). The model takes it as the parameter
  `scheduleStartTime` and proves only that it is placed in the flow.
- The rendered text. The model produces the structure of the two
  resources, not the `'\n'.join` of the formatted lines. The fixed lines
  do not depend on the input: connector profiles, the incremental-pull
  field, the error handling, the `NO_OP` and `PROJECTION` operators, and
  the schedule expression.
- Text.Upper and Text.Lower: model only ASCII letters, because Python's
  full Unicode case mapping (for example `ß` to `SS`) changes string
  lengths and has no bearing on the labels and tokens the pipeline uses.
- Terraform.GenerateTerraform: does not model a row missing a
  `source_field` or `destination_datatype` column. The rows are
  `FieldRecord` values, which always have all four fields.
