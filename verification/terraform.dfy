/** The Terraform generator: one AppFlow flow that copies an object's fields
    into a Snowflake staging table, and the table itself. Only the parts that
    depend on the object name and on the rows are modelled; the fixed
    boilerplate lines carry no logic. */
module Terraform {
  import opened Wrappers
  import opened Text
  import opened Classify
  import opened Records

  /** The Snowflake storage type of each (upper-cased) destination type. */
  const DatabaseDatatypeMapping: map<string, string> := map[
    "BOOLEAN" := "BOOLEAN",
    "CURRENCY" := "FLOAT",
    "DATE" := "DATE",
    "DATETIME" := "TIMESTAMP_NTZ(9)",
    "FLOAT" := "FLOAT",
    "NUMBER" := "NUMBER(38,0)",
    "STRING" := "VARCHAR",
    "TEXT" := "VARCHAR"
  ]

  /** The Snowflake types a column can have. */
  const StorageTypes: set<string> := {
    "BOOLEAN", "FLOAT", "DATE", "TIMESTAMP_NTZ(9)", "NUMBER(38,0)", "VARCHAR"
  }

  /** The table's keys are the destination vocabulary without the sentinel,
      plus `CURRENCY` and `TEXT`, which the destination chain never yields;
      every storage type is reached by some key. */
  lemma StorageTableShape()
    ensures DatabaseDatatypeMapping.Keys == (DestTokens - {REPLACE_ME}) + {"CURRENCY", "TEXT"}
    ensures DatabaseDatatypeMapping.Values == StorageTypes
    ensures "CURRENCY" !in DestTokens && "TEXT" !in DestTokens
  {
    assert DatabaseDatatypeMapping["BOOLEAN"] == "BOOLEAN";
    assert DatabaseDatatypeMapping["CURRENCY"] == "FLOAT";
    assert DatabaseDatatypeMapping["DATE"] == "DATE";
    assert DatabaseDatatypeMapping["DATETIME"] == "TIMESTAMP_NTZ(9)";
    assert DatabaseDatatypeMapping["NUMBER"] == "NUMBER(38,0)";
    assert DatabaseDatatypeMapping["TEXT"] == "VARCHAR";
  }

  /** A column's storage type: the table entry for the upper-cased
      destination type, or a `KeyError` naming the missing key. */
  function ColumnType(destinationDatatype: string): (r: Result<string>)
    ensures r.Ok? <==> Upper(destinationDatatype) in DatabaseDatatypeMapping
    ensures r.Ok? ==> r.value == DatabaseDatatypeMapping[Upper(destinationDatatype)]
    ensures r.Ok? ==> r.value in StorageTypes
    ensures r.Err? ==> r.error == KeyError(Upper(destinationDatatype))
  {
    var key := Upper(destinationDatatype);
    if key in DatabaseDatatypeMapping then Ok(DatabaseDatatypeMapping[key])
    else Err(KeyError(key))
  }

  /** The lookup does not depend on the case of the destination type. */
  lemma ColumnTypeIgnoresCase(destinationDatatype: string)
    ensures ColumnType(Upper(destinationDatatype)) == ColumnType(destinationDatatype)
  {
    UpperIdempotent(destinationDatatype);
  }

  /** A destination token spelled in capitals is its own lookup key. */
  lemma CapitalTokenIsKey(token: string)
    requires forall k :: 0 <= k < |token| ==> 'A' <= token[k] <= 'Z' || token[k] == '_'
    ensures Upper(token) == token
  {
    UpperOfUpperCase(token);
  }

  /** Every destination token the classifier produces has a storage type,
      except the manual-review sentinel, whose lookup fails. */
  lemma DestTokensHaveStorage(token: string)
    requires token in DestTokens
    ensures ColumnType(token).Ok? <==> token != REPLACE_ME
    ensures token == REPLACE_ME ==> ColumnType(token) == Err(KeyError(REPLACE_ME))
  {
    CapitalTokenIsKey(token);
  }

  /** The storage type of each destination token the classifier produces:
      booleans, dates and numbers keep their kind, date-times become
      timestamps without time zone, floats stay floats and strings become
      `VARCHAR`. */
  lemma DestTokenStorageTypes()
    ensures ColumnType("BOOLEAN") == Ok("BOOLEAN")
    ensures ColumnType("DATE") == Ok("DATE")
    ensures ColumnType("DATETIME") == Ok("TIMESTAMP_NTZ(9)")
    ensures ColumnType("FLOAT") == Ok("FLOAT")
    ensures ColumnType("NUMBER") == Ok("NUMBER(38,0)")
    ensures ColumnType("STRING") == Ok("VARCHAR")
  {
    CapitalTokenIsKey("BOOLEAN");
    CapitalTokenIsKey("DATE");
    CapitalTokenIsKey("DATETIME");
    CapitalTokenIsKey("FLOAT");
    CapitalTokenIsKey("NUMBER");
    CapitalTokenIsKey("STRING");
  }

  /** The two keys the destination chain never yields: currencies are stored
      as floats and text as `VARCHAR`. */
  lemma OtherKeyStorageTypes()
    ensures ColumnType("CURRENCY") == Ok("FLOAT")
    ensures ColumnType("TEXT") == Ok("VARCHAR")
  {
    CapitalTokenIsKey("CURRENCY");
    CapitalTokenIsKey("TEXT");
  }

  /** A Map task: copies one Salesforce field into one destination field. */
  datatype MapTask = MapTask(
    destinationField: string,
    sourceFields: seq<string>,
    destinationDataType: string,
    sourceDataType: string)

  /** A column of the staging table. */
  datatype Column = Column(name: string, columnType: string)

  /** The AppFlow flow resource. `scheduleStartTime` is the time of the first
      scheduled run, which the generator derives from the clock. */
  datatype Flow = Flow(
    resourceName: string,
    name: string,
    sourceObject: string,
    destinationObject: string,
    mapTasks: seq<MapTask>,
    filterFields: seq<string>,
    scheduleStartTime: string)

  /** The Snowflake table resource. */
  datatype Table = Table(resourceName: string, name: string, columns: seq<Column>)

  /** Both generated resources. */
  datatype Rendering = Rendering(flow: Flow, table: Table)

  /** The Map task of one row. */
  function TaskOf(row: FieldRecord): (t: MapTask)
    ensures t.sourceFields == [row.sourceField]
    ensures |t.destinationField| == |row.sourceField|
    ensures Upper(t.destinationField) == t.destinationField
    ensures Lower(t.destinationField) == Lower(row.sourceField)
    ensures t.destinationDataType == row.destinationDatatype
    ensures t.sourceDataType == row.sourceDatatype
  {
    UpperIdempotent(row.sourceField);
    LowerOfUpper(row.sourceField);
    MapTask(Upper(row.sourceField), [row.sourceField], row.destinationDatatype, row.sourceDatatype)
  }

  /** The column of one row, or the lookup's `KeyError`. */
  function ColumnOf(row: FieldRecord): (r: Result<Column>)
    ensures r.Ok? <==> Upper(row.destinationDatatype) in DatabaseDatatypeMapping
    ensures r.Ok? ==> && r.value.name == Upper(row.sourceField)
                      && r.value.columnType == DatabaseDatatypeMapping[Upper(row.destinationDatatype)]
                      && r.value.columnType in StorageTypes
    ensures r.Err? ==> r.error == KeyError(Upper(row.destinationDatatype))
  {
    var columnType :- ColumnType(row.destinationDatatype);
    Ok(Column(Upper(row.sourceField), columnType))
  }

  /** The flow and the table for an object and its rows. The column loop is
      the only step that can fail; a failure discards the whole output. */
  function GenerateTerraform(objectName: string, rows: seq<FieldRecord>, scheduleStartTime: string)
    : (r: Result<Rendering>)
    ensures r.Ok? ==> && |r.value.flow.mapTasks| == |rows|
                      && |r.value.flow.filterFields| == |rows|
                      && |r.value.table.columns| == |rows|
  {
    var columns :- MapAll(ColumnOf, rows);
    var resourceName := "salesforce_" + Lower(objectName);
    var flow := Flow(
      resourceName,
      resourceName,
      objectName,
      "STAGING.SALESFORCE." + Upper(objectName),
      seq(|rows|, k requires 0 <= k < |rows| => TaskOf(rows[k])),
      seq(|rows|, k requires 0 <= k < |rows| => rows[k].sourceField),
      scheduleStartTime);
    Ok(Rendering(flow, Table(resourceName, Upper(objectName), columns)))
  }

  /** Rendering succeeds exactly when every row's destination type has a
      storage type; otherwise it fails with the `KeyError` of the first row
      that has none. */
  lemma RenderingOutcome(objectName: string, rows: seq<FieldRecord>, scheduleStartTime: string)
    ensures GenerateTerraform(objectName, rows, scheduleStartTime).Ok? <==>
              forall k :: 0 <= k < |rows| ==> Upper(rows[k].destinationDatatype) in DatabaseDatatypeMapping
    ensures GenerateTerraform(objectName, rows, scheduleStartTime).Err? ==>
              exists k :: && 0 <= k < |rows|
                          && Upper(rows[k].destinationDatatype) !in DatabaseDatatypeMapping
                          && GenerateTerraform(objectName, rows, scheduleStartTime).error
                               == KeyError(Upper(rows[k].destinationDatatype))
                          && forall j :: 0 <= j < k ==> ColumnType(rows[j].destinationDatatype).Ok?
  {
    MapAllOutcome(ColumnOf, rows);
  }

  /** The flow has one Map task per row, in row order: the destination field
      is the upper-cased field name, the source field is the name itself, and
      both data types are copied verbatim. The Filter task lists every row's
      field name once, in row order. */
  lemma FlowFollowsRows(objectName: string, rows: seq<FieldRecord>, scheduleStartTime: string)
    requires GenerateTerraform(objectName, rows, scheduleStartTime).Ok?
    ensures var flow := GenerateTerraform(objectName, rows, scheduleStartTime).value.flow;
            forall k :: 0 <= k < |rows| ==>
              && flow.mapTasks[k].destinationField == Upper(rows[k].sourceField)
              && flow.mapTasks[k].sourceFields == [rows[k].sourceField]
              && flow.mapTasks[k].destinationDataType == rows[k].destinationDatatype
              && flow.mapTasks[k].sourceDataType == rows[k].sourceDatatype
              && flow.filterFields[k] == rows[k].sourceField
  {
  }

  /** The table has one column per row, in row order: its name is the
      upper-cased field name and its type the storage type of the row's
      destination type. */
  lemma TableFollowsRows(objectName: string, rows: seq<FieldRecord>, scheduleStartTime: string)
    requires GenerateTerraform(objectName, rows, scheduleStartTime).Ok?
    ensures var table := GenerateTerraform(objectName, rows, scheduleStartTime).value.table;
            forall k :: 0 <= k < |rows| ==>
              && table.columns[k].name == Upper(rows[k].sourceField)
              && ColumnType(rows[k].destinationDatatype) == Ok(table.columns[k].columnType)
  {
    MapAllValues(ColumnOf, rows);
  }

  /** Every Map task writes the column at the same position of the table,
      and the Filter task projects exactly the fields the Map tasks read. */
  lemma FlowTargetsTableColumns(objectName: string, rows: seq<FieldRecord>, scheduleStartTime: string)
    requires GenerateTerraform(objectName, rows, scheduleStartTime).Ok?
    ensures var out := GenerateTerraform(objectName, rows, scheduleStartTime).value;
            forall k :: 0 <= k < |out.flow.mapTasks| ==>
              && out.flow.mapTasks[k].destinationField == out.table.columns[k].name
              && out.flow.mapTasks[k].sourceFields == [out.flow.filterFields[k]]
  {
    FlowFollowsRows(objectName, rows, scheduleStartTime);
    TableFollowsRows(objectName, rows, scheduleStartTime);
  }

  /** Both resources are named after the lower-cased object; the flow reads
      the object itself and writes the upper-cased table of the staging
      schema, which is the table's own name. */
  lemma RenderingNames(objectName: string, rows: seq<FieldRecord>, scheduleStartTime: string)
    requires GenerateTerraform(objectName, rows, scheduleStartTime).Ok?
    ensures var out := GenerateTerraform(objectName, rows, scheduleStartTime).value;
            && out.flow.resourceName == out.flow.name == out.table.resourceName
            && out.flow.name == "salesforce_" + Lower(objectName)
            && out.flow.sourceObject == objectName
            && out.flow.destinationObject == "STAGING.SALESFORCE." + out.table.name
            && out.table.name == Upper(objectName)
            && out.flow.scheduleStartTime == scheduleStartTime
  {
  }

  /** The rows of a prepared batch render exactly when none of them needs
      manual review. */
  lemma PreparedRowsRender(objectName: string, fields: seq<FieldDescriptor>, scheduleStartTime: string)
    requires PrepareRows(fields).Ok?
    ensures var rows := PrepareRows(fields).value;
            GenerateTerraform(objectName, rows, scheduleStartTime).Ok? <==>
              forall k :: 0 <= k < |rows| ==> rows[k].destinationDatatype != REPLACE_ME
  {
    var rows := PrepareRows(fields).value;
    PreparedRecordsWellTyped(fields);
    RenderingOutcome(objectName, rows, scheduleStartTime);
    forall k | 0 <= k < |rows|
      ensures Upper(rows[k].destinationDatatype) in DatabaseDatatypeMapping <==>
              rows[k].destinationDatatype != REPLACE_ME
    {
      DestTokensHaveStorage(rows[k].destinationDatatype);
    }
  }

  /** One row left for manual review (a Formula over an unrecognised type)
      makes the whole rendering fail: the sentinel has no storage type. */
  lemma ReviewRowBlocksRendering(objectName: string, rows: seq<FieldRecord>, scheduleStartTime: string, k: nat)
    requires k < |rows| && rows[k].destinationDatatype == REPLACE_ME
    ensures GenerateTerraform(objectName, rows, scheduleStartTime).Err?
  {
    RenderingOutcome(objectName, rows, scheduleStartTime);
    DestTokensHaveStorage(REPLACE_ME);
  }

  /** The resources for one currency field of the Account object. */
  lemma RenderingExample(objectName: string, rows: seq<FieldRecord>, scheduleStartTime: string)
    requires objectName == "Account"
    requires rows == [FieldRecord("Amount__c", "CURRENCY", "FLOAT", "Currency(18, 2)")]
    ensures GenerateTerraform(objectName, rows, scheduleStartTime) == Ok(Rendering(
              Flow("salesforce_account", "salesforce_account", "Account", "STAGING.SALESFORCE.ACCOUNT",
                   [MapTask("AMOUNT__C", ["Amount__c"], "FLOAT", "CURRENCY")],
                   ["Amount__c"],
                   scheduleStartTime),
              Table("salesforce_account", "ACCOUNT", [Column("AMOUNT__C", "FLOAT")])))
  {
    var row := rows[0];
    assert Upper("FLOAT") == "FLOAT" by {
      CapitalTokenIsKey("FLOAT");
    }
    assert Upper(row.sourceField) == "AMOUNT__C";
    assert Upper(objectName) == "ACCOUNT";
    assert Lower(objectName) == "account";
    assert ColumnOf(row) == Ok(Column("AMOUNT__C", "FLOAT"));
    assert MapAll(ColumnOf, rows) == Ok([Column("AMOUNT__C", "FLOAT")]) by {
      assert rows[1..] == [];
      assert [Column("AMOUNT__C", "FLOAT")] + [] == [Column("AMOUNT__C", "FLOAT")];
    }
    assert TaskOf(row) == MapTask("AMOUNT__C", ["Amount__c"], "FLOAT", "CURRENCY");
    assert seq(|rows|, k requires 0 <= k < |rows| => TaskOf(rows[k])) == [TaskOf(row)];
    assert seq(|rows|, k requires 0 <= k < |rows| => rows[k].sourceField) == ["Amount__c"];
    assert "salesforce_" + Lower(objectName) == "salesforce_account";
    assert "STAGING.SALESFORCE." + Upper(objectName) == "STAGING.SALESFORCE.ACCOUNT";
  }
}
