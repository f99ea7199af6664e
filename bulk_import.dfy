/**
 * The bulk-import dialog (BulkImportDialog.tsx). It covers:
 * - the file acceptance rule;
 * - the truncation of the content handed to the analyser, and the
 *   temporary record ids;
 * - the tallies recomputed after the preview edits the records;
 * - the import loop: only valid records are saved, in order, each one
 *   appended to the `{type}-data` list of the key-value store, with the
 *   progress bar stepping up to 100.
 *
 * The analyser is an opaque input: its answer arrives as a list of parsed
 * records. The key-value store is a map from key to list. The clock and the
 * random part of a saved record's id are parameters.
 */
module BulkImport {
  import opened Base
  import opened Text
  import opened Seqs
  import opened ImportValidation
  import opened Paging

  // ------------------------------------------------------------ file choice

  datatype FileInfo = FileInfo(name: string, mimeType: string, size: nat)

  const AcceptedMimeTypes: seq<string> := [
    "text/csv",
    "application/json",
    "application/vnd.ms-excel",
    "application/vnd.openxmlformats-officedocument.spreadsheetml.sheet"]

  const MaxImportFileSize := 10 * 1024 * 1024

  /** The type test: one of the four MIME types, or a `.csv`, `.xlsx` or `.json` name. */
  predicate TypeAccepted(f: FileInfo)
  {
    exists t | t in AcceptedMimeTypes :: f.mimeType == t || EndsWith(f.name, ".csv") || EndsWith(f.name, ".xlsx") || EndsWith(f.name, ".json")
  }

  /** The `some` over a non-empty list reduces to the plain disjunction. */
  lemma TypeAcceptedRule(f: FileInfo)
    ensures TypeAccepted(f) <==>
      f.mimeType in AcceptedMimeTypes || EndsWith(f.name, ".csv") || EndsWith(f.name, ".xlsx") || EndsWith(f.name, ".json")
  {
    assert AcceptedMimeTypes[0] in AcceptedMimeTypes;
  }

  datatype SelectOutcome = NoFile | InvalidType | TooLarge | Selected

  // ------------------------------------------------------------- analysis

  const MaxContentLength := 50000

  /** `content.slice(0, 50000)`. */
  function ReadContent(content: string): (r: string)
    ensures |r| <= MaxContentLength
    ensures StartsWith(content, r)
    ensures |content| <= MaxContentLength ==> r == content
  {
    if |content| <= MaxContentLength then content else content[..MaxContentLength]
  }

  /** `temp-{t}-{index}`. */
  function TempId(stamp: nat, index: nat): string
  {
    "temp-" + NatToString(stamp) + "-" + NatToString(index)
  }

  /**
   * The records the analyser returned, each given its temporary id. No two
   * of them share an id, so the preview's edits and deletes by id each reach
   * one record.
   */
  function WithTempIds(records: seq<ParsedRecord>, stamp: nat): (r: seq<ParsedRecord>)
    ensures |r| == |records|
    ensures forall i :: 0 <= i < |r| ==> r[i] == records[i].(id := TempId(stamp, i))
    ensures forall i, j :: 0 <= i < j < |r| ==> r[i].id != r[j].id
  {
    TempIdsPairwiseDistinct(stamp, |records|);
    seq(|records|, i requires 0 <= i < |records| => records[i].(id := TempId(stamp, i)))
  }

  lemma PrefixCancel(p: string, x: string, y: string)
    requires p + x == p + y
    ensures x == y
  {
    assert x == (p + x)[|p|..];
    assert y == (p + y)[|p|..];
  }

  /** Two indices give two different temporary ids under one clock reading. */
  lemma TempIdsDistinct(stamp: nat, i: nat, j: nat)
    requires i != j
    ensures TempId(stamp, i) != TempId(stamp, j)
  {
    if TempId(stamp, i) == TempId(stamp, j) {
      var p := "temp-" + NatToString(stamp) + "-";
      assert TempId(stamp, i) == p + NatToString(i);
      assert TempId(stamp, j) == p + NatToString(j);
      PrefixCancel(p, NatToString(i), NatToString(j));
      NatToStringInjective(i, j);
    }
  }

  /** The first `n` positions give `n` different temporary ids. */
  lemma TempIdsPairwiseDistinct(stamp: nat, n: nat)
    ensures forall i, j :: 0 <= i < j < n ==> TempId(stamp, i) != TempId(stamp, j)
  {
    forall i, j | 0 <= i < j < n ensures TempId(stamp, i) != TempId(stamp, j) {
      TempIdsDistinct(stamp, i, j);
    }
  }

  datatype Analysis = Analysis(
    totalRecords: nat,
    validRecords: nat,
    recordsWithWarnings: nat,
    recordsWithErrors: nat,
    records: seq<ParsedRecord>,
    columnMapping: map<string, string>)

  /** The tallies after the preview hands back its edited list. */
  function Recounted(prev: Analysis, updated: seq<ParsedRecord>): Analysis
  {
    var c := StatusCounts(updated);
    prev.(records := updated, totalRecords := c.all, validRecords := c.valid,
          recordsWithWarnings := c.warning, recordsWithErrors := c.error)
  }

  /**
   * After a recount the totals describe the new list: the total is its
   * length, the three counters split it, and the column mapping is kept.
   */
  lemma RecountedTallies(prev: Analysis, updated: seq<ParsedRecord>)
    ensures var a := Recounted(prev, updated);
      a.records == updated && a.columnMapping == prev.columnMapping
      && a.totalRecords == |updated|
      && a.validRecords == |FilteredRecords(updated, Only(Valid))|
      && a.recordsWithWarnings == |FilteredRecords(updated, Only(Warning))|
      && a.recordsWithErrors == |FilteredRecords(updated, Only(Error))|
      && a.totalRecords == a.validRecords + a.recordsWithWarnings + a.recordsWithErrors
  {
    StatusCountsPartition(updated);
  }

  // ---------------------------------------------------------------- saving

  /** The key-value store: a list of saved records per key. */
  type Store = map<string, seq<Data>>

  function CollectionKey(entity: string): string
  {
    entity + "-data"
  }

  /** `kv.get(key) || []`. */
  function Existing(kv: Store, key: string): seq<Data>
  {
    if key in kv then kv[key] else []
  }

  /**
   * The saved record: the generated id first, then the record's own fields
   * (so a record that has an `id` keeps it), then the two timestamps.
   */
  function NewRecord(data: Data, generatedId: string, now: string): Data
  {
    (map["id" := Str(generatedId)] + data)["createdAt" := Str(now)]["updatedAt" := Str(now)]
  }

  /** The saved record keeps every field of the record except the timestamps, and has an id. */
  lemma NewRecordFields(data: Data, generatedId: string, now: string)
    ensures var r := NewRecord(data, generatedId, now);
      r.Keys == data.Keys + {"id", "createdAt", "updatedAt"}
      && (forall k :: k in data && k != "createdAt" && k != "updatedAt" ==> r[k] == data[k])
      && r["id"] == (if "id" in data then data["id"] else Str(generatedId))
      && r["createdAt"] == Str(now) && r["updatedAt"] == Str(now)
  {
  }

  /** The records one import appends, the k-th one with the k-th generated id. */
  function NewRecords(records: seq<ParsedRecord>, idFor: nat -> string, now: string): (r: seq<Data>)
    ensures |r| == |records|
  {
    if records == [] then []
    else
      var n := |records| - 1;
      NewRecords(records[..n], idFor, now) + [NewRecord(records[n].mappedData, idFor(n), now)]
  }

  /** The k-th appended record is built from the k-th saved record's data. */
  lemma {:induction false} NewRecordsAre(records: seq<ParsedRecord>, idFor: nat -> string, now: string)
    ensures forall k :: 0 <= k < |records| ==>
      NewRecords(records, idFor, now)[k] == NewRecord(records[k].mappedData, idFor(k), now)
  {
    if records != [] {
      var n := |records| - 1;
      NewRecordsAre(records[..n], idFor, now);
    }
  }

  /** `saveRecord`: one record appended to the type's list, existing entries and other keys untouched. */
  function Saved(kv: Store, entity: string, data: Data, generatedId: string, now: string): Store
  {
    var key := CollectionKey(entity);
    kv[key := Existing(kv, key) + [NewRecord(data, generatedId, now)]]
  }

  lemma SavedAppendsOne(kv: Store, entity: string, data: Data, generatedId: string, now: string)
    ensures var key := CollectionKey(entity);
      var kv' := Saved(kv, entity, data, generatedId, now);
      key in kv' && |kv'[key]| == |Existing(kv, key)| + 1
      && kv'[key][..|Existing(kv, key)|] == Existing(kv, key)
      && kv'[key][|Existing(kv, key)|] == NewRecord(data, generatedId, now)
      && (forall k :: k != key ==> (k in kv' <==> k in kv) && (k in kv ==> kv'[k] == kv[k]))
  {
    var key := CollectionKey(entity);
    assert (Existing(kv, key) + [NewRecord(data, generatedId, now)])[..|Existing(kv, key)|] == Existing(kv, key);
  }

  // -------------------------------------------------------------- progress

  /** `Math.round(k / total * 100)`, computed exactly on integers (halves round up). */
  function Progress(k: nat, total: nat): int
    requires total > 0
  {
    (200 * k + total) / (2 * total)
  }

  /** The bar stays within 0..100 while saving, never moves back, and ends at 100. */
  lemma ProgressShape(k: nat, total: nat)
    requires 0 < total && k <= total
    ensures 0 <= Progress(k, total) <= 100
    ensures k < total ==> Progress(k, total) <= Progress(k + 1, total)
    ensures Progress(total, total) == 100
  {
    var d := 2 * total;
    assert 200 * k + total < 101 * d;
    DivBelow(200 * k + total, d, 101);
    DivMono(200 * k + total, 200 * (k + 1) + total, d);
    DivExact(100, total, d);
    assert 100 * d + total == 200 * total + total;
  }

  lemma DivMono(a: nat, b: nat, d: nat)
    requires a <= b && d > 0
    ensures a / d <= b / d
  {
    var qa, qb := a / d, b / d;
    assert a == qa * d + a % d;
    assert b == qb * d + b % d;
    if qa > qb {
      MulMono(qb + 1, qa, d);
    }
  }

  lemma DivBelow(a: nat, d: nat, q: nat)
    requires d > 0 && a < q * d
    ensures a / d < q
  {
    var qa := a / d;
    assert a == qa * d + a % d;
    if qa >= q {
      MulMono(q, qa, d);
    }
  }

  lemma DivExact(q: nat, r: nat, d: nat)
    requires r < d
    ensures (q * d + r) / d == q
  {
    var x := q * d + r;
    var qx := x / d;
    assert x == qx * d + x % d;
    if qx > q {
      MulMono(q + 1, qx, d);
    }
    if qx < q {
      MulMono(qx + 1, q, d);
    }
  }

  /** The values the bar takes after the first `k` saves. */
  function ProgressTrace(k: nat, total: nat): (r: seq<int>)
    requires total > 0
    ensures |r| == k
  {
    if k == 0 then [] else ProgressTrace(k - 1, total) + [Progress(k, total)]
  }

  lemma {:induction false} ProgressTraceIs(k: nat, total: nat)
    requires total > 0
    ensures forall i :: 0 <= i < k ==> ProgressTrace(k, total)[i] == Progress(i + 1, total)
  {
    if k > 0 {
      ProgressTraceIs(k - 1, total);
    }
  }

  /** Over a whole import the bar never moves back and its last value is 100. */
  lemma ProgressTraceMonotone(total: nat)
    requires total > 0
    ensures var t := ProgressTrace(total, total);
      (forall i :: 0 <= i < |t| ==> 0 <= t[i] <= 100)
      && (forall i, j :: 0 <= i <= j < |t| ==> t[i] <= t[j])
      && t[|t| - 1] == 100
  {
    var t := ProgressTrace(total, total);
    ProgressTraceIs(total, total);
    forall i | 0 <= i < |t| ensures 0 <= t[i] <= 100 {
      ProgressShape(i + 1, total);
    }
    forall i, j | 0 <= i <= j < |t| ensures t[i] <= t[j] {
      ProgressUp(i + 1, j + 1, total);
    }
    ProgressShape(total, total);
  }

  lemma {:induction false} ProgressUp(a: nat, b: nat, total: nat)
    requires 0 < total && a <= b <= total
    ensures Progress(a, total) <= Progress(b, total)
    decreases b - a
  {
    if a < b {
      ProgressShape(a, total);
      ProgressUp(a + 1, b, total);
    }
  }

  // ---------------------------------------------------------------- import

  /** The records an import saves: the valid ones, in order. */
  function ToImport(records: seq<ParsedRecord>): seq<ParsedRecord>
  {
    FilteredRecords(records, Only(Valid))
  }

  /** Exactly the valid records are imported, and they keep their order. */
  lemma ToImportSpec(records: seq<ParsedRecord>, r: ParsedRecord)
    ensures r in ToImport(records) <==> r in records && r.status == Valid
    ensures Subsequence(ToImport(records), records)
    ensures |ToImport(records)| == StatusCounts(records).valid
  {
    FilteredRecordsSpec(records, Valid, r);
    StatusCountsPartition(records);
  }

  datatype ImportOutcome = NoAnalysis | NoValidRecords | Imported(count: nat)

  /** The save loop of `handleImport`: one `saveRecord` per record, then the progress update. */
  method SaveAll(kv: Store, entity: string, records: seq<ParsedRecord>, idFor: nat -> string, now: string)
    returns (kv': Store, progress: seq<int>)
    requires |records| > 0
    ensures kv' == kv[CollectionKey(entity) := Existing(kv, CollectionKey(entity)) + NewRecords(records, idFor, now)]
    ensures progress == ProgressTrace(|records|, |records|)
  {
    var key := CollectionKey(entity);
    var total := |records|;
    var imported := 0;
    kv' := kv;
    progress := [];
    while imported < total
      invariant 0 <= imported <= total
      invariant imported == 0 ==> kv' == kv
      invariant imported > 0 ==> kv' == kv[key := Existing(kv, key) + NewRecords(records[..imported], idFor, now)]
      invariant progress == ProgressTrace(imported, total)
    {
      SaveStep(kv, kv', entity, records, imported, idFor, now);
      kv' := Saved(kv', entity, records[imported].mappedData, idFor(imported), now);
      imported := imported + 1;
      progress := progress + [Progress(imported, total)];
    }
    assert records[..total] == records;
  }

  lemma SaveStep(kv: Store, cur: Store, entity: string, records: seq<ParsedRecord>, i: nat, idFor: nat -> string, now: string)
    requires i < |records|
    requires var key := CollectionKey(entity);
      (i == 0 ==> cur == kv) && (i > 0 ==> cur == kv[key := Existing(kv, key) + NewRecords(records[..i], idFor, now)])
    ensures var key := CollectionKey(entity);
      Saved(cur, entity, records[i].mappedData, idFor(i), now)
        == kv[key := Existing(kv, key) + NewRecords(records[..i + 1], idFor, now)]
  {
    var key := CollectionKey(entity);
    assert records[..i + 1][..i] == records[..i];
    var x := NewRecord(records[i].mappedData, idFor(i), now);
    assert NewRecords(records[..i + 1], idFor, now) == NewRecords(records[..i], idFor, now) + [x];
    if i == 0 {
      assert NewRecords(records[..i], idFor, now) == [];
      assert Existing(kv, key) + ([] + [x]) == Existing(kv, key) + [x];
    } else {
      assert Existing(cur, key) == Existing(kv, key) + NewRecords(records[..i], idFor, now);
      assert Existing(cur, key) + [x] == Existing(kv, key) + (NewRecords(records[..i], idFor, now) + [x]);
    }
  }

  /** The dialog's state: the chosen file, the analysis, the progress bar, and the store it saves into. */
  class ImportDialog {
    var entity: string
    var isOpen: bool
    var selectedFile: Option<FileInfo>
    var analysis: Option<Analysis>
    var importProgress: int
    var kv: Store

    constructor (entity: string, kv: Store)
      ensures this.entity == entity && this.kv == kv
      ensures isOpen && selectedFile == None && analysis == None && importProgress == 0
    {
      this.entity := entity;
      this.kv := kv;
      isOpen := true;
      selectedFile := None;
      analysis := None;
      importProgress := 0;
    }

    /** `handleFileSelect`: the type test, then the size test; an accepted file drops the old analysis. */
    method SelectFile(file: Option<FileInfo>) returns (outcome: SelectOutcome)
      modifies this
      ensures outcome == (if file.None? then NoFile
                          else if !TypeAccepted(file.value) then InvalidType
                          else if file.value.size > MaxImportFileSize then TooLarge
                          else Selected)
      ensures outcome == Selected ==> selectedFile == file && analysis == None
      ensures outcome != Selected ==> selectedFile == old(selectedFile) && analysis == old(analysis)
      ensures entity == old(entity) && isOpen == old(isOpen) && importProgress == old(importProgress) && kv == old(kv)
    {
      if file.None? {
        return NoFile;
      }
      if !TypeAccepted(file.value) {
        return InvalidType;
      }
      if file.value.size > MaxImportFileSize {
        return TooLarge;
      }
      selectedFile := file;
      analysis := None;
      outcome := Selected;
    }

    /**
     * `analyzeFile` once the analyser has answered: the records get their
     * temporary ids. Without a chosen file nothing happens.
     */
    method ReceiveAnalysis(answer: Analysis, stamp: nat)
      modifies this
      ensures selectedFile.None? ==> analysis == old(analysis)
      ensures old(selectedFile).Some? ==> analysis == Some(answer.(records := WithTempIds(answer.records, stamp)))
      ensures selectedFile == old(selectedFile) && entity == old(entity) && isOpen == old(isOpen)
      ensures importProgress == old(importProgress) && kv == old(kv)
    {
      if selectedFile.None? {
        return;
      }
      analysis := Some(answer.(records := WithTempIds(answer.records, stamp)));
    }

    /** The preview's `onRecordsUpdate`: new records and recomputed tallies. */
    method RecordsUpdated(updated: seq<ParsedRecord>)
      modifies this
      ensures analysis == (if old(analysis).Some? then Some(Recounted(old(analysis).value, updated)) else None)
      ensures selectedFile == old(selectedFile) && entity == old(entity) && isOpen == old(isOpen)
      ensures importProgress == old(importProgress) && kv == old(kv)
    {
      if analysis.Some? {
        analysis := Some(Recounted(analysis.value, updated));
      }
    }

    /** `handleClose`. */
    method Close()
      modifies this
      ensures selectedFile == None && analysis == None && importProgress == 0 && !isOpen
      ensures entity == old(entity) && kv == old(kv)
    {
      selectedFile := None;
      analysis := None;
      importProgress := 0;
      isOpen := false;
    }

    /**
     * `handleImport`: without an analysis, or with no valid record, nothing
     * changes. Otherwise the valid records are saved in order, the bar steps
     * through `progress`, and the dialog closes.
     */
    method Import(idFor: nat -> string, now: string) returns (outcome: ImportOutcome, progress: seq<int>)
      modifies this
      ensures old(analysis).None? ==> outcome == NoAnalysis
      ensures old(analysis).Some? && ToImport(old(analysis).value.records) == [] ==> outcome == NoValidRecords
      ensures outcome.Imported? <==> old(analysis).Some? && ToImport(old(analysis).value.records) != []
      ensures !outcome.Imported? ==>
        kv == old(kv) && analysis == old(analysis) && selectedFile == old(selectedFile)
        && isOpen == old(isOpen) && importProgress == old(importProgress) && progress == []
      ensures outcome.Imported? ==>
        var valid := ToImport(old(analysis).value.records);
        var key := CollectionKey(entity);
        outcome.count == |valid|
        && kv == old(kv)[key := Existing(old(kv), key) + NewRecords(valid, idFor, now)]
        && progress == ProgressTrace(|valid|, |valid|)
        && selectedFile == None && analysis == None && importProgress == 0 && !isOpen
      ensures entity == old(entity)
    {
      progress := [];
      if analysis.None? {
        return NoAnalysis, [];
      }
      var valid := ToImport(analysis.value.records);
      if |valid| == 0 {
        return NoValidRecords, [];
      }
      importProgress := 0;
      kv, progress := SaveAll(kv, entity, valid, idFor, now);
      outcome := Imported(|valid|);
      Close();
    }
  }
}
