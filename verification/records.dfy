/** The record builder of the extraction stage: drop the ignored fields, then
    classify every remaining field into one typed record, in input order. One
    unrecognised native type aborts the whole batch. */
module Records {
  import opened Wrappers
  import opened Text
  import opened Classify

  /** One field as the metadata query reports it. */
  datatype FieldDescriptor = FieldDescriptor(qualifiedApiName: string, dataType: string)

  /** One row of the intermediate CSV file. */
  datatype FieldRecord = FieldRecord(
    sourceField: string,
    sourceDatatype: string,
    destinationDatatype: string,
    salesforceDatatype: string)

  /** System and audit fields that never take part in the output. */
  const IgnoredFields: seq<string> := ["LastReferencedDate", "LastViewedDate", "UserRecordAccessId"]

  /** Native types that never take part in the output (none at present). */
  const IgnoredDatatypes: seq<string> := []

  /** The exclusion filter: an ignored name or an ignored native type. With
      no ignored native type, exactly the three system fields are dropped. */
  predicate IgnoredRow(row: FieldDescriptor): (b: bool)
    ensures b <==> (|| row.qualifiedApiName == "LastReferencedDate"
                    || row.qualifiedApiName == "LastViewedDate"
                    || row.qualifiedApiName == "UserRecordAccessId")
  {
    row.qualifiedApiName in IgnoredFields || row.dataType in IgnoredDatatypes
  }

  /** Only the three system fields are ignored, whatever their native type. */
  lemma IgnoredRowIffSystemField(row: FieldDescriptor, otherType: string)
    ensures IgnoredRow(row) <==> row.qualifiedApiName in IgnoredFields
    ensures IgnoredRow(row) == IgnoredRow(FieldDescriptor(row.qualifiedApiName, otherType))
  {
  }

  // ---------------------------------------------------------------------
  // One record
  // ---------------------------------------------------------------------

  /** The record of one field, or the classifier's error: the name and the
      native label are copied verbatim and the two canonical types are the
      classifiers' answers. The source type is computed first, so its error
      is the one reported. */
  function BuildRecord(row: FieldDescriptor): (r: Result<FieldRecord>)
    ensures r.Ok? <==> SourceType(row.dataType).Ok?
    ensures r.Err? ==> r.error == UnknownDataType(row.dataType)
    ensures r.Ok? ==> && r.value.sourceField == row.qualifiedApiName
                      && r.value.salesforceDatatype == row.dataType
                      && SourceType(row.dataType) == Ok(r.value.sourceDatatype)
                      && DestType(row.dataType) == Ok(r.value.destinationDatatype)
  {
    var source :- SourceType(row.dataType);
    // The destination chain raises on exactly the labels the source chain
    // raises on, so once the source type is known the destination type is too.
    SameLabelsAccepted(row.dataType);
    var dest := DestType(row.dataType).value;
    Ok(FieldRecord(row.qualifiedApiName, source, dest, row.dataType))
  }

  /** The invariant of every built record: both canonical types lie in their
      vocabularies, and the destination type is the coarsening of the source
      type. */
  predicate WellTyped(rec: FieldRecord) {
    && rec.sourceDatatype in SourceTokens
    && rec.destinationDatatype in DestTokens
    && rec.sourceDatatype in Coarsening
    && rec.destinationDatatype == Coarsening[rec.sourceDatatype]
  }

  /** Every record the builder produces is well typed. */
  lemma BuiltRecordWellTyped(row: FieldDescriptor)
    requires BuildRecord(row).Ok?
    ensures WellTyped(BuildRecord(row).value)
  {
    DestIsCoarsenedSource(row.dataType);
  }

  // ---------------------------------------------------------------------
  // The filter
  // ---------------------------------------------------------------------

  /** The rows that take part in the output, in input order. */
  function Kept(rows: seq<FieldDescriptor>): (r: seq<FieldDescriptor>)
    ensures |r| <= |rows|
    ensures forall k :: 0 <= k < |r| ==> !IgnoredRow(r[k])
  {
    if |rows| == 0 then []
    else if IgnoredRow(rows[0]) then Kept(rows[1..])
    else [rows[0]] + Kept(rows[1..])
  }

  /** A row is kept exactly when it is in the input and not ignored. */
  lemma {:induction false} KeptMembers(rows: seq<FieldDescriptor>)
    ensures forall row :: row in Kept(rows) <==> row in rows && !IgnoredRow(row)
  {
    if |rows| > 0 {
      KeptMembers(rows[1..]);
      assert rows == [rows[0]] + rows[1..];
    }
  }

  /** Filtering a concatenation filters each part and keeps them in order. */
  lemma {:induction false} KeptAppend(a: seq<FieldDescriptor>, b: seq<FieldDescriptor>)
    ensures Kept(a + b) == Kept(a) + Kept(b)
  {
    if |a| > 0 {
      assert (a + b)[1..] == a[1..] + b;
      KeptAppend(a[1..], b);
    } else {
      assert a + b == b;
    }
  }

  /** Filtering twice changes nothing. */
  lemma {:induction false} KeptIsFixed(rows: seq<FieldDescriptor>)
    ensures Kept(Kept(rows)) == Kept(rows)
  {
    if |rows| > 0 {
      KeptIsFixed(rows[1..]);
      if !IgnoredRow(rows[0]) {
        assert ([rows[0]] + Kept(rows[1..]))[1..] == Kept(rows[1..]);
      }
    }
  }

  // ---------------------------------------------------------------------
  // The batch
  // ---------------------------------------------------------------------

  /** The records of all rows that are not ignored, in input order, or the
      error of the first such row whose native type is not recognised. */
  function PrepareRows(rows: seq<FieldDescriptor>): (r: Result<seq<FieldRecord>>)
    ensures r.Ok? ==> |r.value| == |Kept(rows)|
  {
    MapAll(BuildRecord, Kept(rows))
  }

  /** Record `k` of a successful batch is the record built for kept row `k`:
      its name, native label and canonical types. */
  lemma PrepareRowsDescribesKept(rows: seq<FieldDescriptor>)
    requires PrepareRows(rows).Ok?
    ensures forall k :: 0 <= k < |Kept(rows)| ==>
              BuildRecord(Kept(rows)[k]) == Ok(PrepareRows(rows).value[k])
  {
    MapAllValues(BuildRecord, Kept(rows));
  }

  /** Every kept row is recognised by the classifiers. */
  predicate AllRecognised(kept: seq<FieldDescriptor>) {
    forall k :: 0 <= k < |kept| ==> BuildRecord(kept[k]).Ok?
  }

  /** The batch succeeds exactly when every kept row is recognised; when it
      fails, it reports the unknown native type of the first kept row that is
      not recognised. */
  lemma PrepareRowsOutcome(rows: seq<FieldDescriptor>)
    ensures PrepareRows(rows).Ok? <==> AllRecognised(Kept(rows))
    ensures PrepareRows(rows).Err? ==>
              exists k :: && 0 <= k < |Kept(rows)|
                          && BuildRecord(Kept(rows)[k]).Err?
                          && PrepareRows(rows).error == UnknownDataType(Kept(rows)[k].dataType)
                          && AllRecognised(Kept(rows)[..k])
  {
    var kept := Kept(rows);
    MapAllOutcome(BuildRecord, kept);
    if PrepareRows(rows).Err? {
      var k :| && 0 <= k < |kept|
               && BuildRecord(kept[k]) == Err(PrepareRows(rows).error)
               && forall j :: 0 <= j < k ==> BuildRecord(kept[j]).Ok?;
      assert AllRecognised(kept[..k]) by {
        forall j | 0 <= j < k
          ensures BuildRecord(kept[..k][j]).Ok?
        {
          assert kept[..k][j] == kept[j];
        }
      }
    }
  }

  /** Every prepared record is well typed, and none describes a system field. */
  lemma PreparedRecordsWellTyped(rows: seq<FieldDescriptor>)
    requires PrepareRows(rows).Ok?
    ensures forall k :: 0 <= k < |PrepareRows(rows).value| ==> WellTyped(PrepareRows(rows).value[k])
    ensures forall k :: 0 <= k < |PrepareRows(rows).value| ==>
              PrepareRows(rows).value[k].sourceField !in IgnoredFields
  {
    var recs := PrepareRows(rows).value;
    var kept := Kept(rows);
    PrepareRowsDescribesKept(rows);
    forall k | 0 <= k < |recs|
      ensures WellTyped(recs[k]) && recs[k].sourceField !in IgnoredFields
    {
      assert BuildRecord(kept[k]) == Ok(recs[k]);
      BuiltRecordWellTyped(kept[k]);
    }
  }

  /** Ignored rows are never classified: the outcome depends on the kept rows
      alone, so an unknown type on an ignored row does not abort the batch. */
  lemma OnlyKeptRowsMatter(rows: seq<FieldDescriptor>)
    ensures PrepareRows(rows) == PrepareRows(Kept(rows))
  {
    KeptIsFixed(rows);
  }

  /** The system fields are dropped whatever their native type, even one no
      rule recognises. */
  lemma SystemFieldsDropped(name: string, dataType: string, rows: seq<FieldDescriptor>)
    requires name in IgnoredFields
    ensures PrepareRows([FieldDescriptor(name, dataType)] + rows) == PrepareRows(rows)
  {
    assert ([FieldDescriptor(name, dataType)] + rows)[1..] == rows;
  }

  /** Building records from two batches in turn is building them from the
      joined batch: the output keeps the input order. */
  lemma PrepareRowsAppend(a: seq<FieldDescriptor>, b: seq<FieldDescriptor>)
    ensures PrepareRows(a).Ok? && PrepareRows(b).Ok? ==>
              PrepareRows(a + b) == Ok(PrepareRows(a).value + PrepareRows(b).value)
  {
    if PrepareRows(a).Ok? && PrepareRows(b).Ok? {
      KeptAppend(a, b);
      MapAllAppend(BuildRecord, Kept(a), Kept(b));
    }
  }

  /** The record of a currency field with precision and scale. */
  lemma CurrencyRecordExample(row: FieldDescriptor)
    requires row == FieldDescriptor("Amount__c", "Currency(18, 2)")
    ensures BuildRecord(row) == Ok(FieldRecord("Amount__c", "CURRENCY", "FLOAT", "Currency(18, 2)"))
  {
    CurrencyExample(row.dataType);
  }

  /** An ignored row followed by a kept row gives exactly the kept row's
      record: the ignored row is never classified. */
  lemma PrepareRowsAfterIgnored(ignored: FieldDescriptor, row: FieldDescriptor, rec: FieldRecord)
    requires IgnoredRow(ignored) && !IgnoredRow(row) && BuildRecord(row) == Ok(rec)
    ensures PrepareRows([ignored, row]) == Ok([rec])
  {
    assert Kept([ignored, row]) == [row] by {
      assert [ignored, row][1..] == [row];
      assert [row][1..] == [];
    }
    assert MapAll(BuildRecord, [row]) == Ok([rec]) by {
      assert [row][1..] == [];
      assert [rec] + [] == [rec];
    }
  }

  /** A currency field after an ignored audit field of unknown type: one
      record, classified and copied as the classifiers say. */
  lemma PrepareRowsExample(rows: seq<FieldDescriptor>)
    requires rows == [FieldDescriptor("LastViewedDate", "Nonsense"), FieldDescriptor("Amount__c", "Currency(18, 2)")]
    ensures PrepareRows(rows) == Ok([FieldRecord("Amount__c", "CURRENCY", "FLOAT", "Currency(18, 2)")])
  {
    CurrencyRecordExample(rows[1]);
    PrepareRowsAfterIgnored(rows[0], rows[1], FieldRecord("Amount__c", "CURRENCY", "FLOAT", "Currency(18, 2)"));
  }
}
