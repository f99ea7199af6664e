/**
 * The validation preview of a bulk import (DataValidationPreview.tsx). It
 * covers:
 * - the per-entity record validator with its issues and suggestions, and
 *   the status derived from them;
 * - the editor kind offered for each field;
 * - editing a cell and deleting a record;
 * - the status filter and the status tallies.
 *
 * A record's cells are JSON values. Numbers are integers here; fractions
 * and NaN cells are not modelled.
 */
module ImportValidation {
  import opened Base
  import opened Text
  import opened Seqs
  import opened ValidationMessages

  datatype Value = Str(s: string) | Num(n: int) | Flag(b: bool) | Null

  type Data = map<string, Value>

  /** `data[field]`: an absent key reads as undefined, which every check treats as null. */
  function Get(data: Data, field: string): Value
  {
    if field in data then data[field] else Null
  }

  /** JavaScript falsiness. */
  predicate Falsy(v: Value)
  {
    match v
    case Str(s) => s == ""
    case Num(n) => n == 0
    case Flag(b) => !b
    case Null => true
  }

  /** `String(v)`. */
  function ValueText(v: Value): string
  {
    match v
    case Str(s) => s
    case Num(n) => IntToString(n)
    case Flag(b) => if b then "true" else "false"
    case Null => "null"
  }

  /** A required field is missing when its value is falsy or its text trims to nothing. */
  predicate Missing(v: Value)
  {
    Falsy(v) || Trim(ValueText(v)) == ""
  }

  /** `isNaN(Number(v))` for a value that is not falsy. */
  predicate NotANumber(v: Value)
  {
    match v
    case Str(s) => !NumberParses(s)
    case _ => false
  }

  const AcceptedBrands: seq<string> := ["Hino", "PRY", "Other"]
  const AcceptedVehicleStatuses: seq<string> := ["active", "inactive", "maintenance"]

  /** `[...].includes(v)`: strict equality, so only a string can be accepted. */
  predicate OneOf(v: Value, accepted: seq<string>)
  {
    v.Str? && v.s in accepted
  }

  function RequiredFields(entity: string): seq<string>
  {
    if entity == "vehicles" then ["headPlate", "tailPlate", "brand", "type", "capacity"]
    else if entity == "drivers" then ["name", "licenseNo", "phone"]
    else if entity == "customers" then ["name", "address", "contactName", "phone"]
    else if entity == "routes" then ["routeName", "origin", "destination", "distance", "estimatedDuration"]
    else if entity == "rates" then ["routeFrom", "routeTo", "vehicleType", "baseRate", "perKmRate", "effectiveDate"]
    else []
  }

  function NumericFields(entity: string): seq<string>
  {
    if entity == "routes" then ["distance", "estimatedDuration"] else ["baseRate", "perKmRate"]
  }

  datatype Status = Valid | Warning | Error

  datatype Validation = Validation(status: Status, issues: seq<string>, suggestions: seq<string>)

  /** One format check: whether it fails, and the issue and suggestion it then adds. */
  datatype Check = Check(fails: bool, issue: string, suggestion: string)

  function BrandCheck(data: Data): Check
  {
    var v := Get(data, "brand");
    Check(!Falsy(v) && !OneOf(v, AcceptedBrands), BrandMessage, BrandSuggestion)
  }

  function StatusCheck(data: Data): Check
  {
    var v := Get(data, "status");
    Check(!Falsy(v) && !OneOf(v, AcceptedVehicleStatuses), StatusMessage, StatusSuggestion)
  }

  function PhoneCheck(data: Data): Check
  {
    var v := Get(data, "phone");
    Check(!Falsy(v) && !PhoneLike(ValueText(v)), PhoneMessage, PhoneSuggestion)
  }

  function EmailCheck(data: Data): Check
  {
    var v := Get(data, "email");
    Check(!Falsy(v) && !EmailLike(ValueText(v)), EmailMessage, EmailSuggestion)
  }

  function NumericCheck(data: Data, field: string): Check
  {
    var v := Get(data, field);
    Check(!Falsy(v) && NotANumber(v), NumericMessage(field), NumericSuggestion(field))
  }

  function NumericChecks(data: Data, fields: seq<string>): seq<Check>
  {
    if fields == [] then [] else NumericChecks(data, fields[..|fields| - 1]) + [NumericCheck(data, fields[|fields| - 1])]
  }

  /** The format checks that apply to an entity type, in the order the validator runs them. */
  function ChecksFor(data: Data, entity: string): seq<Check>
  {
    (if entity == "vehicles" then [BrandCheck(data), StatusCheck(data)] else [])
    + (if entity == "drivers" || entity == "customers" then [PhoneCheck(data)] else [])
    + (if entity == "customers" then [EmailCheck(data)] else [])
    + (if entity == "routes" || entity == "rates" then NumericChecks(data, NumericFields(entity)) else [])
  }

  /** One issue per missing required field, in field order. */
  function MissingIssues(data: Data, fields: seq<string>): seq<string>
  {
    if fields == [] then []
    else
      var f := fields[|fields| - 1];
      MissingIssues(data, fields[..|fields| - 1]) + (if Missing(Get(data, f)) then [RequiredMessage(f)] else [])
  }

  function FailedIssues(checks: seq<Check>): seq<string>
  {
    if checks == [] then []
    else
      var c := checks[|checks| - 1];
      FailedIssues(checks[..|checks| - 1]) + (if c.fails then [c.issue] else [])
  }

  function FailedSuggestions(checks: seq<Check>): seq<string>
  {
    if checks == [] then []
    else
      var c := checks[|checks| - 1];
      FailedSuggestions(checks[..|checks| - 1]) + (if c.fails then [c.suggestion] else [])
  }

  predicate MarksRequired(issue: string)
  {
    Contains(issue, RequiredThai) || Contains(issue, RequiredEnglish)
  }

  /** No issues: valid; some issue names a required field: error; otherwise warning. */
  function StatusOf(issues: seq<string>): Status
  {
    if issues == [] then Valid
    else if exists i | i in issues :: MarksRequired(i) then Error
    else Warning
  }

  /** What `revalidateRecord` returns. */
  function Revalidate(data: Data, entity: string): Validation
  {
    var checks := ChecksFor(data, entity);
    var issues := MissingIssues(data, RequiredFields(entity)) + FailedIssues(checks);
    Validation(StatusOf(issues), issues, FailedSuggestions(checks))
  }

  /** `revalidateRecord`: the required-field loop, the format checks, the numeric-field loop, then the status. */
  method RevalidateRecord(data: Data, entity: string) returns (r: Validation)
    ensures r == Revalidate(data, entity)
  {
    var required := RequiredLoop(data, RequiredFields(entity));
    var vehicleIssues, vehicleSuggestions := [], [];
    if entity == "vehicles" {
      vehicleIssues, vehicleSuggestions := VehicleFormat(data);
    }
    var phoneIssues, phoneSuggestions := [], [];
    if entity == "drivers" || entity == "customers" {
      phoneIssues, phoneSuggestions := FormatCheck(PhoneCheck(data));
    }
    var emailIssues, emailSuggestions := [], [];
    if entity == "customers" {
      emailIssues, emailSuggestions := FormatCheck(EmailCheck(data));
    }
    var numIssues, numSuggestions := [], [];
    if entity == "routes" || entity == "rates" {
      numIssues, numSuggestions := NumericLoop(data, NumericFields(entity));
    }
    ChecksForSplit(data, entity);
    var formatIssues := vehicleIssues + phoneIssues + emailIssues + numIssues;
    var issues := required + formatIssues;
    var suggestions := vehicleSuggestions + phoneSuggestions + emailSuggestions + numSuggestions;
    r := Validation(StatusOf(issues), issues, suggestions);
  }

  /** The failures of the four check groups, concatenated, are the failures of the whole list. */
  lemma ChecksForSplit(data: Data, entity: string)
    ensures var v := if entity == "vehicles" then [BrandCheck(data), StatusCheck(data)] else [];
      var p := if entity == "drivers" || entity == "customers" then [PhoneCheck(data)] else [];
      var e := if entity == "customers" then [EmailCheck(data)] else [];
      var n := if entity == "routes" || entity == "rates" then NumericChecks(data, NumericFields(entity)) else [];
      FailedIssues(ChecksFor(data, entity)) == FailedIssues(v) + FailedIssues(p) + FailedIssues(e) + FailedIssues(n)
      && FailedSuggestions(ChecksFor(data, entity)) == FailedSuggestions(v) + FailedSuggestions(p) + FailedSuggestions(e) + FailedSuggestions(n)
  {
    var v := if entity == "vehicles" then [BrandCheck(data), StatusCheck(data)] else [];
    var p := if entity == "drivers" || entity == "customers" then [PhoneCheck(data)] else [];
    var e := if entity == "customers" then [EmailCheck(data)] else [];
    var n := if entity == "routes" || entity == "rates" then NumericChecks(data, NumericFields(entity)) else [];
    assert ChecksFor(data, entity) == v + p + e + n;
    FailedAppend(v + p + e, n);
    FailedAppend(v + p, e);
    FailedAppend(v, p);
  }

  /** The brand check, then the vehicle-status check. */
  method VehicleFormat(data: Data) returns (issues: seq<string>, suggestions: seq<string>)
    ensures issues == FailedIssues([BrandCheck(data), StatusCheck(data)])
    ensures suggestions == FailedSuggestions([BrandCheck(data), StatusCheck(data)])
  {
    issues, suggestions := [], [];
    var brand := Get(data, "brand");
    if !Falsy(brand) && !OneOf(brand, AcceptedBrands) {
      issues := issues + [BrandMessage];
      suggestions := suggestions + [BrandSuggestion];
    }
    var status := Get(data, "status");
    if !Falsy(status) && !OneOf(status, AcceptedVehicleStatuses) {
      issues := issues + [StatusMessage];
      suggestions := suggestions + [StatusSuggestion];
    }
    ChecksSnoc([], BrandCheck(data));
    ChecksSnoc([BrandCheck(data)], StatusCheck(data));
    assert [] + [BrandCheck(data)] == [BrandCheck(data)];
    assert [BrandCheck(data)] + [StatusCheck(data)] == [BrandCheck(data), StatusCheck(data)];
  }

  /** A single format check: its issue and suggestion when it fails, nothing otherwise. */
  method FormatCheck(c: Check) returns (issues: seq<string>, suggestions: seq<string>)
    ensures issues == FailedIssues([c]) && suggestions == FailedSuggestions([c])
  {
    issues, suggestions := [], [];
    if c.fails {
      issues := issues + [c.issue];
      suggestions := suggestions + [c.suggestion];
    }
    ChecksSnoc([], c);
    assert [] + [c] == [c];
  }

  /** The required-field loop: one issue per missing field, in field order. */
  method RequiredLoop(data: Data, fields: seq<string>) returns (issues: seq<string>)
    ensures issues == MissingIssues(data, fields)
  {
    issues := [];
    var i := 0;
    while i < |fields|
      invariant 0 <= i <= |fields|
      invariant issues == MissingIssues(data, fields[..i])
    {
      assert fields[..i + 1][..i] == fields[..i];
      if Missing(Get(data, fields[i])) {
        issues := issues + [RequiredMessage(fields[i])];
      }
      i := i + 1;
    }
    assert fields[..|fields|] == fields;
  }

  /** The numeric-field loop: an issue and a suggestion per given field that is not a number. */
  method NumericLoop(data: Data, fields: seq<string>) returns (issues: seq<string>, suggestions: seq<string>)
    ensures issues == FailedIssues(NumericChecks(data, fields))
    ensures suggestions == FailedSuggestions(NumericChecks(data, fields))
  {
    issues, suggestions := [], [];
    var k := 0;
    while k < |fields|
      invariant 0 <= k <= |fields|
      invariant issues == FailedIssues(NumericChecks(data, fields[..k]))
      invariant suggestions == FailedSuggestions(NumericChecks(data, fields[..k]))
    {
      assert fields[..k + 1][..k] == fields[..k];
      ChecksSnoc(NumericChecks(data, fields[..k]), NumericCheck(data, fields[k]));
      var v := Get(data, fields[k]);
      if !Falsy(v) && NotANumber(v) {
        issues := issues + [NumericMessage(fields[k])];
        suggestions := suggestions + [NumericSuggestion(fields[k])];
      }
      k := k + 1;
    }
    assert fields[..|fields|] == fields;
  }

  lemma {:induction false} FailedAppend(a: seq<Check>, b: seq<Check>)
    ensures FailedIssues(a + b) == FailedIssues(a) + FailedIssues(b)
    ensures FailedSuggestions(a + b) == FailedSuggestions(a) + FailedSuggestions(b)
  {
    if b == [] {
      assert a + b == a;
    } else {
      var n := |b| - 1;
      FailedAppend(a, b[..n]);
      assert (a + b)[..|a + b| - 1] == a + b[..n];
    }
  }

  lemma ChecksSnoc(done: seq<Check>, c: Check)
    ensures FailedIssues(done + [c]) == FailedIssues(done) + (if c.fails then [c.issue] else [])
    ensures FailedSuggestions(done + [c]) == FailedSuggestions(done) + (if c.fails then [c.suggestion] else [])
  {
    assert (done + [c])[..|done|] == done;
  }

  // -------------------------------------------------------------- properties

  /**
   * The required-field issues are one per missing field: an issue is there
   * exactly when it names a listed field that is missing.
   */
  lemma {:induction false} MissingIssuesSpec(data: Data, fields: seq<string>, m: string)
    ensures |MissingIssues(data, fields)| <= |fields|
    ensures m in MissingIssues(data, fields) <==> exists f :: f in fields && Missing(Get(data, f)) && m == RequiredMessage(f)
  {
    if fields != [] {
      var n := |fields| - 1;
      MissingIssuesSpec(data, fields[..n], m);
      assert fields == fields[..n] + [fields[n]];
      if m in MissingIssues(data, fields) && !(m in MissingIssues(data, fields[..n])) {
        assert fields[n] in fields;
      }
      if exists f :: f in fields && Missing(Get(data, f)) && m == RequiredMessage(f) {
        var f :| f in fields && Missing(Get(data, f)) && m == RequiredMessage(f);
        if f != fields[n] {
          assert f in fields[..n];
        }
      }
    }
  }

  lemma {:induction false} FailedIssueFrom(checks: seq<Check>, m: string)
    requires m in FailedIssues(checks)
    ensures exists c :: c in checks && c.fails && c.issue == m
  {
    var n := |checks| - 1;
    assert checks == checks[..n] + [checks[n]];
    if m in FailedIssues(checks[..n]) {
      FailedIssueFrom(checks[..n], m);
      var c :| c in checks[..n] && c.fails && c.issue == m;
      assert c in checks;
    }
  }

  /** Each failed check adds exactly one issue and one suggestion. */
  lemma {:induction false} OneSuggestionPerFailedCheck(checks: seq<Check>)
    ensures |FailedIssues(checks)| == |FailedSuggestions(checks)| == Count(checks, (c: Check) => c.fails)
  {
    if checks != [] {
      var n := |checks| - 1;
      OneSuggestionPerFailedCheck(checks[..n]);
      assert checks == checks[..n] + [checks[n]];
      FilterAppend(checks[..n], [checks[n]], (c: Check) => c.fails);
    }
  }

  /** Text without `จ` or `q` cannot contain either marker word. */
  lemma Unmarked(m: string)
    requires NoMarkerLetters(m)
    ensures !MarksRequired(m)
  {
    assert 'จ' in RequiredThai && 'q' in RequiredEnglish;
    if Contains(m, RequiredThai) {
      ContainsChar(m, RequiredThai, 'จ');
    }
    if Contains(m, RequiredEnglish) {
      ContainsChar(m, RequiredEnglish, 'q');
    }
  }

  lemma {:induction false} ChecksUseFormatMessages(data: Data, entity: string, c: Check)
    requires c in ChecksFor(data, entity)
    ensures c.issue in FormatMessages()
  {
    var fields := NumericFields(entity);
    NumericChecksAre(data, fields);
    if c in NumericChecks(data, fields) {
      var i :| 0 <= i < |fields| && NumericChecks(data, fields)[i] == c;
      assert c == NumericCheck(data, fields[i]);
    }
  }

  /** A format check's issue never contains the words that mark a required field. */
  lemma CheckIssueUnmarked(data: Data, entity: string, c: Check)
    requires c in ChecksFor(data, entity)
    ensures !MarksRequired(c.issue)
  {
    ChecksUseFormatMessages(data, entity, c);
    MessagesLackMarkerLetters();
    Unmarked(c.issue);
  }

  lemma {:induction false} NumericChecksAre(data: Data, fields: seq<string>)
    ensures |NumericChecks(data, fields)| == |fields|
    ensures forall i :: 0 <= i < |fields| ==> NumericChecks(data, fields)[i] == NumericCheck(data, fields[i])
  {
    if fields != [] {
      NumericChecksAre(data, fields[..|fields| - 1]);
    }
  }

  lemma RequiredMessageMarked(field: string)
    ensures MarksRequired(RequiredMessage(field))
  {
    assert RequiredMessage(field) == ("ฟิลด์ \"" + field + "\" ") + RequiredThai + (" (Required field \"" + field + "\" is missing)");
    ContainsMiddle("ฟิลด์ \"" + field + "\" ", RequiredThai, " (Required field \"" + field + "\" is missing)");
  }

  /**
   * The derived status: `valid` exactly when there is no issue, `error`
   * exactly when some required field is missing, `warning` otherwise.
   */
  lemma StatusRule(data: Data, entity: string)
    ensures Revalidate(data, entity).status == Valid <==> Revalidate(data, entity).issues == []
    ensures Revalidate(data, entity).status == Error <==>
      exists f :: f in RequiredFields(entity) && Missing(Get(data, f))
  {
    var r := Revalidate(data, entity);
    var req := MissingIssues(data, RequiredFields(entity));
    var checks := ChecksFor(data, entity);
    if exists f :: f in RequiredFields(entity) && Missing(Get(data, f)) {
      var f :| f in RequiredFields(entity) && Missing(Get(data, f));
      MissingIssuesSpec(data, RequiredFields(entity), RequiredMessage(f));
      RequiredMessageMarked(f);
      assert RequiredMessage(f) in r.issues;
    } else {
      forall m | m in r.issues ensures !MarksRequired(m) {
        if m in req {
          MissingIssuesSpec(data, RequiredFields(entity), m);
        } else {
          FailedIssueFrom(checks, m);
          var c :| c in checks && c.fails && c.issue == m;
          CheckIssueUnmarked(data, entity, c);
        }
      }
    }
  }

  /**
   * The suggestions are one per failed format check, and the issues are the
   * missing required fields plus those same checks: a missing field adds an
   * issue and no suggestion.
   */
  lemma IssueAndSuggestionCounts(data: Data, entity: string)
    ensures var r := Revalidate(data, entity);
      |r.suggestions| == Count(ChecksFor(data, entity), (c: Check) => c.fails)
      && |r.issues| == |MissingIssues(data, RequiredFields(entity))| + |r.suggestions|
  {
    OneSuggestionPerFailedCheck(ChecksFor(data, entity));
  }

  /** A vehicle record gets the brand issue exactly when a brand is given and is not Hino, PRY or Other. */
  lemma VehicleBrandRule(data: Data)
    ensures BrandMessage in Revalidate(data, "vehicles").issues <==>
      !Falsy(Get(data, "brand")) && !OneOf(Get(data, "brand"), AcceptedBrands)
  {
    VehicleFailures(data);
    assert BrandThai[0] == 'B' && StatusMessage[0] == 'S';
    var fields := RequiredFields("vehicles");
    MissingIssuesSpec(data, fields, BrandMessage);
  }

  lemma VehicleFailures(data: Data)
    ensures FailedIssues(ChecksFor(data, "vehicles")) ==
      (if BrandCheck(data).fails then [BrandMessage] else []) + (if StatusCheck(data).fails then [StatusMessage] else [])
  {
    var checks := ChecksFor(data, "vehicles");
    assert checks == [BrandCheck(data), StatusCheck(data)];
    ChecksSnoc([], BrandCheck(data));
    ChecksSnoc([BrandCheck(data)], StatusCheck(data));
    assert [] + [BrandCheck(data)] == [BrandCheck(data)];
    assert [BrandCheck(data)] + [StatusCheck(data)] == checks;
  }

  /** A record of a type the validator does not know has no issue and is valid. */
  lemma UnknownEntityIsValid(data: Data, entity: string)
    requires entity !in ["vehicles", "drivers", "customers", "routes", "rates"]
    ensures Revalidate(data, entity) == Validation(Valid, [], [])
  {
  }

  // -------------------------------------------------------------- editors

  datatype Editor = TextEditor | SelectEditor(options: seq<string>)

  /** `getFieldOptions`. */
  function FieldOptions(entity: string): map<string, Editor>
  {
    if entity == "vehicles" then
      map["brand" := SelectEditor(AcceptedBrands), "status" := SelectEditor(AcceptedVehicleStatuses),
          "headPlate" := TextEditor, "tailPlate" := TextEditor, "type" := TextEditor, "capacity" := TextEditor]
    else if entity == "drivers" then
      map["status" := SelectEditor(["active", "inactive"]), "name" := TextEditor, "licenseNo" := TextEditor,
          "phone" := TextEditor, "assignedVehicleId" := TextEditor]
    else if entity == "customers" then
      map["name" := TextEditor, "address" := TextEditor, "contactName" := TextEditor, "phone" := TextEditor,
          "email" := TextEditor, "paymentTermDays" := TextEditor, "creditLimit" := TextEditor]
    else if entity == "routes" then
      map["routeName" := TextEditor, "origin" := TextEditor, "destination" := TextEditor, "distance" := TextEditor,
          "estimatedDuration" := TextEditor, "tollFees" := TextEditor, "notes" := TextEditor]
    else if entity == "rates" then
      map["routeFrom" := TextEditor, "routeTo" := TextEditor, "vehicleType" := TextEditor, "baseRate" := TextEditor,
          "perKmRate" := TextEditor, "effectiveDate" := TextEditor]
    else map[]
  }

  /**
   * Every required field has an editor; the vehicle brand and status pickers
   * offer exactly the values the validator accepts; an unknown type has none.
   */
  lemma EditorsCoverRequiredFields(entity: string)
    ensures forall f :: f in RequiredFields(entity) ==> f in FieldOptions(entity)
    ensures entity == "vehicles" ==>
      FieldOptions(entity)["brand"] == SelectEditor(AcceptedBrands)
      && FieldOptions(entity)["status"] == SelectEditor(AcceptedVehicleStatuses)
    ensures entity !in ["vehicles", "drivers", "customers", "routes", "rates"] ==> FieldOptions(entity) == map[]
  {
  }

  // ---------------------------------------------------------- record list

  datatype ParsedRecord = ParsedRecord(
    id: string,
    originalData: Data,
    mappedData: Data,
    status: Status,
    issues: seq<string>,
    suggestions: seq<string>)

  /** A record whose verdict is the validator's verdict on its mapped data. */
  predicate Consistent(r: ParsedRecord, entity: string)
  {
    Revalidate(r.mappedData, entity) == Validation(r.status, r.issues, r.suggestions)
  }

  /** One record after its cell `field` is set to the edited text and the record is validated again. */
  function Edited(r: ParsedRecord, field: string, editValue: string, entity: string): ParsedRecord
  {
    var data := r.mappedData[field := Str(editValue)];
    var v := Revalidate(data, entity);
    r.(mappedData := data, status := v.status, issues := v.issues, suggestions := v.suggestions)
  }

  /** `handleEditSave`. */
  function EditSave(records: seq<ParsedRecord>, recordId: string, field: string, editValue: string, entity: string): seq<ParsedRecord>
  {
    Map(records, (r: ParsedRecord) => if r.id == recordId then Edited(r, field, editValue, entity) else r)
  }

  /**
   * An edit keeps the list's length and order, touches only the records with
   * that id, sets the cell on them, and leaves them consistent with the validator.
   */
  lemma EditSaveSpec(records: seq<ParsedRecord>, recordId: string, field: string, editValue: string, entity: string)
    ensures var out := EditSave(records, recordId, field, editValue, entity);
      |out| == |records|
      && (forall i :: 0 <= i < |records| && records[i].id != recordId ==> out[i] == records[i])
      && (forall i :: 0 <= i < |records| && records[i].id == recordId ==>
            out[i].id == recordId && out[i].originalData == records[i].originalData
            && Get(out[i].mappedData, field) == Str(editValue)
            && (forall g :: g != field ==> Get(out[i].mappedData, g) == Get(records[i].mappedData, g))
            && Consistent(out[i], entity))
  {
  }

  /** An edit keeps every record consistent when every record was. */
  lemma EditSavePreservesConsistency(records: seq<ParsedRecord>, recordId: string, field: string, editValue: string, entity: string)
    requires forall i :: 0 <= i < |records| ==> Consistent(records[i], entity)
    ensures var out := EditSave(records, recordId, field, editValue, entity);
      forall i :: 0 <= i < |out| ==> Consistent(out[i], entity)
  {
    EditSaveSpec(records, recordId, field, editValue, entity);
  }

  /** `confirmDelete`: nothing happens unless a non-empty id is pending. */
  function ConfirmDelete(records: seq<ParsedRecord>, pending: Option<string>): seq<ParsedRecord>
  {
    if pending.Some? && pending.value != "" then Filter(records, (r: ParsedRecord) => r.id != pending.value) else records
  }

  /** A delete removes exactly the records with the pending id and keeps the rest in order. */
  lemma ConfirmDeleteSpec(records: seq<ParsedRecord>, id: string, r: ParsedRecord)
    requires id != ""
    ensures r in ConfirmDelete(records, Some(id)) <==> r in records && r.id != id
    ensures Subsequence(ConfirmDelete(records, Some(id)), records)
    ensures ConfirmDelete(records, None) == records && ConfirmDelete(records, Some("")) == records
  {
    FilterMember(records, (x: ParsedRecord) => x.id != id, r);
    FilterSubsequence(records, (x: ParsedRecord) => x.id != id);
  }

  datatype StatusFilter = AllStatuses | Only(status: Status)

  predicate Passes(filter: StatusFilter, r: ParsedRecord)
  {
    match filter
    case AllStatuses => true
    case Only(s) => r.status == s
  }

  /** `filteredRecords`. */
  function FilteredRecords(records: seq<ParsedRecord>, filter: StatusFilter): seq<ParsedRecord>
  {
    Filter(records, (r: ParsedRecord) => Passes(filter, r))
  }

  /** `all` lists every record; a status lists exactly the records with it, in order. */
  lemma FilteredRecordsSpec(records: seq<ParsedRecord>, s: Status, r: ParsedRecord)
    ensures FilteredRecords(records, AllStatuses) == records
    ensures r in FilteredRecords(records, Only(s)) <==> r in records && r.status == s
    ensures Subsequence(FilteredRecords(records, Only(s)), records)
  {
    FilterAll(records, (x: ParsedRecord) => Passes(AllStatuses, x));
    FilterMember(records, (x: ParsedRecord) => Passes(Only(s), x), r);
    FilterSubsequence(records, (x: ParsedRecord) => Passes(Only(s), x));
  }

  datatype Counts = Counts(all: nat, valid: nat, warning: nat, error: nat)

  /** `statusCounts`. */
  function StatusCounts(records: seq<ParsedRecord>): Counts
  {
    Counts(|records|,
           Count(records, (r: ParsedRecord) => r.status == Valid),
           Count(records, (r: ParsedRecord) => r.status == Warning),
           Count(records, (r: ParsedRecord) => r.status == Error))
  }

  /** The three status tallies add up to the total, and each equals the size of its filter. */
  lemma StatusCountsPartition(records: seq<ParsedRecord>)
    ensures var c := StatusCounts(records);
      c.all == c.valid + c.warning + c.error
      && c.valid == |FilteredRecords(records, Only(Valid))|
      && c.warning == |FilteredRecords(records, Only(Warning))|
      && c.error == |FilteredRecords(records, Only(Error))|
  {
    CountPartition3(records, (r: ParsedRecord) => r.status == Valid, (r: ParsedRecord) => r.status == Warning,
                     (r: ParsedRecord) => r.status == Error);
    FilterSame(records, (r: ParsedRecord) => r.status == Valid, (r: ParsedRecord) => Passes(Only(Valid), r));
    FilterSame(records, (r: ParsedRecord) => r.status == Warning, (r: ParsedRecord) => Passes(Only(Warning), r));
    FilterSame(records, (r: ParsedRecord) => r.status == Error, (r: ParsedRecord) => Passes(Only(Error), r));
  }
}
