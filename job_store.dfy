/**
 * The data-access layer (firestore.ts). It covers:
 * - the next job number of the year;
 * - the conversion of stored time stamps to dates on read;
 * - the query constraints of the vehicle list;
 * - the client-side filters of the job list;
 * - the date conversion of job and rate updates.
 *
 * A stored document is a map from field names to `Field` values. Time stamps and dates
 * carry their instant as a whole number.
 */
module JobStore {
  import opened Base
  import opened Text
  import opened Seqs
  import opened Domain
  import opened Paging

  // ---------------------------------------------------------------------
  // Job numbers
  // ---------------------------------------------------------------------

  /** `getFullYear().toString().slice(-2)`. */
  function YearSuffix(year: nat): string
  {
    var s := NatToString(year);
    JsSlice(s, -2, |s|)
  }

  /** A year tag: digits only, so it holds no dash. */
  predicate YearTag(yy: string)
  {
    AllDigits(yy) && '-' !in yy
  }

  /** The year suffix is one or two digits. */
  lemma YearSuffixDigits(year: nat)
    ensures 1 <= |YearSuffix(year)| <= 2 && YearTag(YearSuffix(year))
  {
    var s := NatToString(year);
    var yy := YearSuffix(year);
    assert yy == s[if |s| >= 2 then |s| - 2 else 0..];
    forall i | 0 <= i < |yy| ensures IsDigit(yy[i]) {
      assert yy[i] == s[i + (if |s| >= 2 then |s| - 2 else 0)];
    }
  }

  /** The job-number range the query asks for: from `yy-0000` to `yy-9999` in string order. */
  predicate InYear(yy: string, n: string)
  {
    LexLe(yy + "-0000", n) && LexLe(n, yy + "-9999")
  }

  function InYearOf(yy: string): string -> bool
  {
    (n: string) => InYear(yy, n)
  }

  lemma LexAbove(ns: seq<string>, m: string, top: string)
    requires forall i :: 0 <= i < |ns| ==> LexLe(ns[i], m)
    requires LexLe(m, top)
    ensures forall i :: 0 <= i < |ns| ==> LexLe(ns[i], top)
  {
    forall i | 0 <= i < |ns| ensures LexLe(ns[i], top) {
      LexTrans(ns[i], m, top);
    }
  }

  /** The first result of a query ordered by job number, descending: the greatest in string order. */
  function Greatest(ns: seq<string>): (r: string)
    requires ns != []
    ensures r in ns
    ensures forall i :: 0 <= i < |ns| ==> LexLe(ns[i], r)
  {
    LexTotal(ns[0], ns[0]);
    if |ns| == 1 then ns[0]
    else
      var m := Greatest(ns[1..]);
      LexTotal(m, ns[0]);
      if LexLe(m, ns[0]) then
        LexAbove(ns[1..], m, ns[0]);
        assert forall i :: 1 <= i < |ns| ==> ns[i] == ns[1..][i - 1];
        ns[0]
      else
        assert forall i :: 1 <= i < |ns| ==> ns[i] == ns[1..][i - 1];
        m
  }

  /**
   * `parseInt(n.split('-')[1])`; `None` stands for NaN, which is also what
   * a number without a dash gives.
   */
  function SequenceOf(n: string): Option<int>
  {
    var parts := Split(n, '-');
    if |parts| >= 2 then ParseInt(parts[1]) else None
  }

  /** A sequence number zero-padded to four digits. */
  function Padded(k: nat): string
  {
    PadStart(NatToString(k), 4, '0')
  }

  /** The job number of a year tag and a sequence: `${yy}-${padded}`. */
  function JobNumber(yy: string, k: nat): string
  {
    yy + "-" + Padded(k)
  }

  /**
   * `getNextJobNumber` for the year `yy`, given the job numbers stored. With
   * no number of the year it is `yy-0001`. Otherwise it is the sequence of
   * the greatest number of the year, plus one, padded to four digits. A
   * sequence that does not parse would give `NaN`.
   */
  function NextJobNumberIn(yy: string, jobNumbers: seq<string>): string
  {
    var inYear := Filter(jobNumbers, InYearOf(yy));
    if inYear == [] then yy + "-0001" else NextAfter(yy, SequenceOf(Greatest(inYear)))
  }

  /** The number after the last sequence of the year; a sequence that does not parse gives `NaN`. */
  function NextAfter(yy: string, last: Option<int>): string
  {
    if last.None? then yy + "-" + PadStart("NaN", 4, '0')
    else yy + "-" + PadStart(IntToString(last.value + 1), 4, '0')
  }

  lemma NextAfterValue(yy: string, v: nat)
    ensures NextAfter(yy, Some(v as int)) == JobNumber(yy, v + 1)
  {
    assert IntToString(v + 1) == NatToString(v + 1);
  }

  /** `getNextJobNumber` in a given year. */
  function NextJobNumber(year: nat, jobNumbers: seq<string>): string
  {
    NextJobNumberIn(YearSuffix(year), jobNumbers)
  }

  /** The first job of a year is number `0001`. */
  lemma FirstJobOfYear(yy: string, jobNumbers: seq<string>)
    requires forall i :: 0 <= i < |jobNumbers| ==> !InYear(yy, jobNumbers[i])
    ensures NextJobNumberIn(yy, jobNumbers) == yy + "-0001"
  {
    FilterNone(jobNumbers, InYearOf(yy));
  }

  /**
   * A string between `p + lo` and `p + hi` starts with `p`, and its next
   * character lies between the first characters of `lo` and `hi`.
   */
  lemma {:induction false} Sandwich(p: string, lo: string, hi: string, n: string)
    requires |lo| > 0 && |hi| > 0
    requires LexLe(p + lo, n) && LexLe(n, p + hi)
    ensures |n| > |p| && n[..|p|] == p && lo[0] <= n[|p|] <= hi[0]
    ensures n[|p|] == lo[0] ==> LexLe(lo[1..], n[|p| + 1..])
    ensures n[|p|] == hi[0] ==> LexLe(n[|p| + 1..], hi[1..])
  {
    if p != [] {
      assert (p + lo)[0] == p[0] && (p + lo)[1..] == p[1..] + lo;
      assert (p + hi)[0] == p[0] && (p + hi)[1..] == p[1..] + hi;
      Sandwich(p[1..], lo, hi, n[1..]);
      assert n[1..][|p| - 1] == n[|p|];
      assert n[1..][|p| - 1 + 1..] == n[|p| + 1..];
    } else {
      assert p + lo == lo && p + hi == hi;
    }
  }

  /** A number of the year's range is the tag, a dash and a part that starts with a digit. */
  lemma InYearShape(yy: string, n: string)
    requires InYear(yy, n)
    ensures |n| > |yy| + 1 && n == yy + ['-'] + n[|yy| + 1..] && IsDigit(n[|yy| + 1])
  {
    Sandwich(yy, "-0000", "-9999", n);
    var rest := n[|yy| + 1..];
    assert "-0000"[1..] == "0000" && "-9999"[1..] == "9999";
    assert "" + "0000" == "0000" && "" + "9999" == "9999";
    Sandwich("", "0000", "9999", rest);
    assert n == n[..|yy|] + [n[|yy|]] + rest;
  }

  /**
   * Every number the query returns is the year, a dash and a part that
   * starts with a digit, so its sequence always parses: the query never
   * hands back a number that yields `NaN`.
   */
  lemma InYearParses(yy: string, n: string)
    requires YearTag(yy) && InYear(yy, n)
    ensures SequenceOf(n).Some? && SequenceOf(n).value >= 0
  {
    InYearShape(yy, n);
    var rest := n[|yy| + 1..];
    SplitCons(yy, '-', rest);
    FirstPiece(rest);
    ParseIntDigitFirst(Split(rest, '-')[0]);
  }

  /** A string that does not start with a dash keeps its first character in its first piece. */
  lemma FirstPiece(rest: string)
    requires |rest| > 0 && rest[0] != '-'
    ensures |Split(rest, '-')[0]| > 0 && Split(rest, '-')[0][0] == rest[0]
  {
    var i := IndexOf(rest, '-');
    assert i != 0;
  }

  /** A padded sequence is all digits. */
  lemma PaddedDigits(k: nat)
    ensures YearTag(Padded(k))
  {
    var s := NatToString(k);
    var r := Padded(k);
    forall i | 0 <= i < |r| ensures IsDigit(r[i]) {
      if i >= |r| - |s| {
        assert r[i] == r[|r| - |s|..][i - (|r| - |s|)];
      }
    }
  }

  /** A job number splits at its one dash into the year tag and the padded sequence. */
  lemma JobNumberParts(yy: string, k: nat)
    requires YearTag(yy)
    ensures Split(JobNumber(yy, k), '-') == [yy, Padded(k)]
  {
    PaddedDigits(k);
    assert JobNumber(yy, k) == yy + ['-'] + Padded(k);
    SplitCons(yy, '-', Padded(k));
    SplitNone(Padded(k), '-');
  }

  /** A job number reads back as its sequence. */
  lemma NumberWithSequence(yy: string, k: nat)
    requires YearTag(yy)
    ensures SequenceOf(JobNumber(yy, k)) == Some(k as int)
  {
    JobNumberParts(yy, k);
    ParsePadded(k, 4);
  }

  /** A job number starts with its year tag and a dash. */
  lemma NumberStartsWithYear(yy: string, k: nat)
    ensures StartsWith(JobNumber(yy, k), yy + "-")
  {
    StartsWithAppend(yy + "-", Padded(k));
  }

  /** The sequence of the greatest number of the year, the one the query returns first. */
  function LastOfYear(yy: string, jobNumbers: seq<string>): Option<int>
    requires Filter(jobNumbers, InYearOf(yy)) != []
  {
    SequenceOf(Greatest(Filter(jobNumbers, InYearOf(yy))))
  }

  /** The greatest number of the year parses. */
  lemma LastOfYearParses(yy: string, jobNumbers: seq<string>)
    requires YearTag(yy) && Filter(jobNumbers, InYearOf(yy)) != []
    ensures LastOfYear(yy, jobNumbers).Some? && LastOfYear(yy, jobNumbers).value >= 0
  {
    var g := Greatest(Filter(jobNumbers, InYearOf(yy)));
    FilterMember(jobNumbers, InYearOf(yy), g);
    InYearParses(yy, g);
  }

  /**
   * Once a year has numbers, the next number is the job number of the
   * greatest number's sequence plus one, and its own sequence reads back as
   * that successor.
   */
  lemma NextJobNumberFollowsGreatest(yy: string, jobNumbers: seq<string>)
    requires YearTag(yy) && Filter(jobNumbers, InYearOf(yy)) != []
    ensures LastOfYear(yy, jobNumbers).Some? && LastOfYear(yy, jobNumbers).value >= 0
    ensures NextJobNumberIn(yy, jobNumbers) == JobNumber(yy, LastOfYear(yy, jobNumbers).value + 1)
    ensures SequenceOf(NextJobNumberIn(yy, jobNumbers)) == Some(LastOfYear(yy, jobNumbers).value + 1)
  {
    LastOfYearParses(yy, jobNumbers);
    var v: nat := LastOfYear(yy, jobNumbers).value;
    NextAfterValue(yy, v);
    NumberWithSequence(yy, v + 1);
  }

  /**
   * Past the ten-thousandth job of a year the number repeats. `yy-10000`
   * sorts below `yy-9999` as a string, so with both stored the query still
   * returns `yy-9999` first, and the next number is `yy-10000` again.
   */
  lemma SequenceRolloverRepeats(yy: string)
    requires YearTag(yy)
    ensures NextJobNumberIn(yy, [yy + "-9999", yy + "-10000"]) == yy + "-10000"
  {
    var ns := [yy + "-9999", yy + "-10000"];
    RolloverGreatest(yy);
    Rendered9999(yy);
    NumberWithSequence(yy, 9999);
    NextJobNumberFollowsGreatest(yy, ns);
    Rendered10000(yy);
  }

  /** Both numbers are of the year, and the query returns `yy-9999` first. */
  lemma RolloverGreatest(yy: string)
    ensures Filter([yy + "-9999", yy + "-10000"], InYearOf(yy)) == [yy + "-9999", yy + "-10000"]
    ensures Greatest([yy + "-9999", yy + "-10000"]) == yy + "-9999"
  {
    RolloverOrder();
    LexPrefix(yy, "-0000", "-9999");
    LexPrefix(yy, "-9999", "-9999");
    LexPrefix(yy, "-0000", "-10000");
    LexPrefix(yy, "-10000", "-9999");
    LexPrefix(yy, "-9999", "-10000");
    FilterAll([yy + "-9999", yy + "-10000"], InYearOf(yy));
  }

  /** In string order `-10000` lies between `-0000` and `-9999`. */
  lemma RolloverOrder()
    ensures LexLe("-0000", "-9999") && LexLe("-9999", "-9999")
    ensures LexLe("-0000", "-10000") && LexLe("-10000", "-9999")
    ensures !LexLe("-9999", "-10000")
  {
    LexTotal("-9999", "-9999");
  }

  lemma Rendered9999(yy: string)
    ensures JobNumber(yy, 9999) == yy + "-9999"
  {
    Digits9999();
    assert Padded(9999) == "9999";
    assert "-" + "9999" == "-9999";
  }

  lemma Digits9999()
    ensures NatToString(9999) == "9999"
  {
    assert NatToString(9) == "9";
    assert NatToString(99) == "99";
    assert NatToString(999) == "999";
  }

  lemma Rendered10000(yy: string)
    ensures JobNumber(yy, 10000) == yy + "-10000"
  {
    Digits10000();
    assert Padded(10000) == "10000";
    assert "-" + "10000" == "-10000";
  }

  lemma Digits10000()
    ensures NatToString(10000) == "10000"
  {
    assert NatToString(1) == "1";
    assert NatToString(10) == "10";
    assert NatToString(100) == "100";
    assert NatToString(1000) == "1000";
  }

  /**
   * The sequence of a number of the year, read by value: the year and a
   * dash in front, and a non-negative number after them.
   */
  function SequenceInYear(yy: string, n: string): Option<nat>
  {
    if StartsWith(n, yy + "-") then
      var s := SequenceOf(n);
      if s.Some? && s.value >= 0 then Some(s.value as nat) else None
    else None
  }

  /** The greatest sequence of the year by value, or zero when there is none. */
  function GreatestSequence(yy: string, ns: seq<string>): (r: nat)
    ensures forall i :: 0 <= i < |ns| && SequenceInYear(yy, ns[i]).Some? ==> SequenceInYear(yy, ns[i]).value <= r
  {
    if ns == [] then 0
    else
      var m := GreatestSequence(yy, ns[..|ns| - 1]);
      var s := SequenceInYear(yy, ns[|ns| - 1]);
      assert forall i :: 0 <= i < |ns| - 1 ==> ns[i] == ns[..|ns| - 1][i];
      if s.Some? && s.value > m then s.value else m
  }

  /**
   * The intended next number: one past the greatest sequence of the year
   * compared as numbers. It is never a number already stored, however many
   * jobs the year has.
   */
  function NextJobNumberByValue(year: nat, jobNumbers: seq<string>): (r: string)
    ensures r !in jobNumbers
    ensures StartsWith(r, YearSuffix(year) + "-")
  {
    var yy := YearSuffix(year);
    YearSuffixDigits(year);
    FreshInYear(yy, jobNumbers);
    NumberStartsWithYear(yy, GreatestSequence(yy, jobNumbers) + 1);
    JobNumber(yy, GreatestSequence(yy, jobNumbers) + 1)
  }

  lemma FreshInYear(yy: string, jobNumbers: seq<string>)
    requires YearTag(yy)
    ensures JobNumber(yy, GreatestSequence(yy, jobNumbers) + 1) !in jobNumbers
  {
    var m := GreatestSequence(yy, jobNumbers);
    NumberWithSequence(yy, m + 1);
    NumberStartsWithYear(yy, m + 1);
    assert SequenceInYear(yy, JobNumber(yy, m + 1)) == Some(m + 1);
  }

  /** With no number of the year stored, the number chosen by value is `yy-0001`, as before. */
  lemma FirstByValue(year: nat, jobNumbers: seq<string>)
    requires forall i :: 0 <= i < |jobNumbers| ==> SequenceInYear(YearSuffix(year), jobNumbers[i]).None?
    ensures NextJobNumberByValue(year, jobNumbers) == YearSuffix(year) + "-0001"
  {
    var yy := YearSuffix(year);
    NoSequenceIsZero(yy, jobNumbers);
    assert Padded(1) == "0001" by {
      assert NatToString(1) == "1";
      assert Repeat('0', 3) == "000";
    }
    assert "-" + "0001" == "-0001";
    assert yy + "-" + "0001" == yy + ("-" + "0001");
  }

  lemma {:induction false} NoSequenceIsZero(yy: string, ns: seq<string>)
    requires forall i :: 0 <= i < |ns| ==> SequenceInYear(yy, ns[i]).None?
    ensures GreatestSequence(yy, ns) == 0
  {
    if ns != [] {
      var front := ns[..|ns| - 1];
      assert forall i :: 0 <= i < |front| ==> front[i] == ns[i];
      NoSequenceIsZero(yy, front);
    }
  }

  // ---------------------------------------------------------------------
  // Stored values
  // ---------------------------------------------------------------------

  /**
   * A stored field: a store time stamp, a JavaScript `Date`, text, or a
   * nested value (an array or map, whose contents are not looked into).
   */
  datatype Field = Stamp(millis: int) | DateValue(millis: int) | Plain(text: string) | Nested(items: seq<Field>)

  /** `value instanceof Timestamp ? value.toDate() : value`. */
  function FromStore(f: Field): Field
  {
    if f.Stamp? then DateValue(f.millis) else f
  }

  /** `Timestamp.fromDate`. */
  function ToStore(f: Field): Field
  {
    if f.DateValue? then Stamp(f.millis) else f
  }

  /** The document `convertTimestamp` is meant to produce: every top-level field read from the store. */
  function Converted(data: map<string, Field>): map<string, Field>
  {
    map k | k in data :: FromStore(data[k])
  }

  /**
   * `convertTimestamp`: copy the document, then visit every key and replace
   * a time stamp by the `Date` of the same instant.
   */
  method ConvertTimestamp(data: map<string, Field>) returns (converted: map<string, Field>)
    ensures converted == Converted(data)
  {
    converted := data;
    var remaining := data.Keys;
    while remaining != {}
      invariant remaining <= data.Keys
      invariant converted.Keys == data.Keys
      invariant forall k :: k in data ==> converted[k] == if k in remaining then data[k] else FromStore(data[k])
      decreases remaining
    {
      var k :| k in remaining;
      if converted[k].Stamp? {
        converted := converted[k := DateValue(converted[k].millis)];
      }
      remaining := remaining - {k};
    }
  }

  /**
   * Conversion keeps the key set and every instant. No top-level stamp is
   * left, and every other value, including a stamp nested inside an array
   * or map, is unchanged. Converting twice is converting once.
   */
  lemma ConvertedSpec(data: map<string, Field>)
    ensures Converted(data).Keys == data.Keys
    ensures forall k :: k in data ==> !Converted(data)[k].Stamp?
    ensures forall k :: k in data && data[k].Stamp? ==> Converted(data)[k] == DateValue(data[k].millis)
    ensures forall k :: k in data && !data[k].Stamp? ==> Converted(data)[k] == data[k]
    ensures Converted(Converted(data)) == Converted(data)
  {
  }

  /** The date fields a job update converts. */
  const JobDateKeys: set<string> := {"startDate", "pickupDate", "deliveryDate"}

  /** Store a field as given when it is present. */
  function StoreIfPresent(u: map<string, Field>, data: map<string, Field>, key: string): map<string, Field>
  {
    if key in data then u[key := ToStore(data[key])] else u
  }

  /**
   * `jobsService.update`'s payload: the patch, `updatedAt` set to now, and
   * each date field that is present stored as a time stamp.
   */
  function JobUpdatePayload(data: map<string, Field>, now: int): map<string, Field>
  {
    var u := data["updatedAt" := Stamp(now)];
    StoreIfPresent(StoreIfPresent(StoreIfPresent(u, data, "startDate"), data, "pickupDate"), data, "deliveryDate")
  }

  /**
   * A job update always stamps `updatedAt` with now, overriding any value in
   * the patch, and touches no field the patch leaves out. Only the date
   * fields it carries are converted.
   */
  lemma JobUpdatePayloadSpec(data: map<string, Field>, now: int)
    ensures JobUpdatePayload(data, now).Keys == data.Keys + {"updatedAt"}
    ensures JobUpdatePayload(data, now)["updatedAt"] == Stamp(now)
    ensures forall k :: k in data && k != "updatedAt" ==>
      JobUpdatePayload(data, now)[k] == if k in JobDateKeys then ToStore(data[k]) else data[k]
  {
  }

  /**
   * Reading back what a job update wrote gives each date field the patch
   * carried as the same `Date`, and `updatedAt` as the date of now.
   */
  lemma JobUpdateReadsBack(data: map<string, Field>, now: int)
    ensures Converted(JobUpdatePayload(data, now))["updatedAt"] == DateValue(now)
    ensures forall k :: k in data && k in JobDateKeys && data[k].DateValue? ==> Converted(JobUpdatePayload(data, now))[k] == data[k]
  {
    JobUpdatePayloadSpec(data, now);
  }

  /** `ratesService.update`'s payload: `effectiveDate` is converted only when it is given; nothing is added. */
  function RateUpdatePayload(data: map<string, Field>): map<string, Field>
  {
    StoreIfPresent(data, data, "effectiveDate")
  }

  lemma RateUpdatePayloadSpec(data: map<string, Field>)
    ensures RateUpdatePayload(data).Keys == data.Keys
    ensures "effectiveDate" !in data ==> RateUpdatePayload(data) == data
    ensures "effectiveDate" in data ==> RateUpdatePayload(data)["effectiveDate"] == ToStore(data["effectiveDate"])
    ensures forall k :: k in data && k != "effectiveDate" ==> RateUpdatePayload(data)[k] == data[k]
  {
  }

  // ---------------------------------------------------------------------
  // Query constraints and client filters
  // ---------------------------------------------------------------------

  datatype Constraint = OrderBy(field: string, descending: bool) | WhereEquals(field: string, value: string)

  /** `filters?.x && filters.x !== 'all'`: given, not empty and not `all`. */
  predicate Active(filter: Option<string>)
  {
    filter.Some? && filter.value != "" && filter.value != "all"
  }

  /** `vehiclesService.getAll`'s constraint list. */
  function VehicleConstraints(brand: Option<string>, status: Option<string>): seq<Constraint>
  {
    [OrderBy("createdAt", true)]
    + (if Active(brand) then [WhereEquals("brand", brand.value)] else [])
    + (if Active(status) then [WhereEquals("status", status.value)] else [])
  }

  function VehicleField(v: Vehicle, field: string): Option<string>
  {
    if field == "brand" then Some(v.brand) else if field == "status" then Some(v.status) else None
  }

  /** A vehicle meets every `where` clause of a constraint list. */
  predicate Satisfies(v: Vehicle, cs: seq<Constraint>)
  {
    forall i :: 0 <= i < |cs| && cs[i].WhereEquals? ==> VehicleField(v, cs[i].field) == Some(cs[i].value)
  }

  /**
   * The list always starts with the newest-first ordering and holds one
   * clause per active filter. A vehicle meets the clauses exactly when it
   * has the brand and the status asked for, where those filters are active.
   */
  lemma VehicleConstraintsSpec(brand: Option<string>, status: Option<string>, v: Vehicle)
    ensures var cs := VehicleConstraints(brand, status);
      cs[0] == OrderBy("createdAt", true)
      && |cs| == 1 + (if Active(brand) then 1 else 0) + (if Active(status) then 1 else 0)
      && (forall i :: 1 <= i < |cs| ==> cs[i].WhereEquals?)
    ensures Satisfies(v, VehicleConstraints(brand, status))
      <==> (!Active(brand) || v.brand == brand.value) && (!Active(status) || v.status == status.value)
  {
    var cs := VehicleConstraints(brand, status);
    if Active(brand) {
      assert cs[1] == WhereEquals("brand", brand.value);
    }
    if Active(status) {
      assert cs[|cs| - 1] == WhereEquals("status", status.value);
    }
  }

  /** The filters `jobsService.getAll` accepts. */
  datatype JobFilters = JobFilters(
    search: Option<string>,
    status: Option<string>,
    customerId: Option<string>,
    startDate: Option<Date>,
    endDate: Option<Date>)

  /** A filter step that applies only when it is switched on. */
  function Stage(jobs: seq<Job>, on: bool, p: Job -> bool): seq<Job>
  {
    if on then Filter(jobs, p) else jobs
  }

  function WithStatus(status: string): Job -> bool
  {
    (j: Job) => j.status == status
  }

  function WithCustomer(id: string): Job -> bool
  {
    (j: Job) => j.customerId == id
  }

  predicate Searched(j: Job, search: string)
  {
    Contains(Lower(j.jobNumber), Lower(search)) || Contains(Lower(j.customerName), Lower(search))
  }

  function WithSearch(search: string): Job -> bool
  {
    (j: Job) => Searched(j, search)
  }

  function PickupFrom(start: Date): Job -> bool
  {
    (j: Job) => DateLe(start, j.pickupDate)
  }

  function PickupUntil(end: Date): Job -> bool
  {
    (j: Job) => DateLe(j.pickupDate, end)
  }

  predicate SearchOn(f: JobFilters)
  {
    f.search.Some? && f.search.value != ""
  }

  /**
   * `jobsService.getAll` over the jobs as the store returns them, newest
   * first. The status and customer clauses run in the store and the search
   * and pickup-date bounds afterwards, one filter after another. Unused
   * filters are replaced by harmless defaults, which the steps never read.
   */
  function JobsGetAll(jobs: seq<Job>, f: JobFilters): seq<Job>
  {
    var byStatus := Stage(jobs, Active(f.status), WithStatus(StatusOf(f)));
    var byCustomer := Stage(byStatus, Active(f.customerId), WithCustomer(CustomerOf(f)));
    var bySearch := Stage(byCustomer, SearchOn(f), WithSearch(SearchOf(f)));
    var fromStart := Stage(bySearch, f.startDate.Some?, PickupFrom(StartOf(f)));
    Stage(fromStart, f.endDate.Some?, PickupUntil(EndOf(f)))
  }

  function StatusOf(f: JobFilters): string { if f.status.Some? then f.status.value else "" }
  function CustomerOf(f: JobFilters): string { if f.customerId.Some? then f.customerId.value else "" }
  function SearchOf(f: JobFilters): string { if f.search.Some? then f.search.value else "" }
  function StartOf(f: JobFilters): Date { if f.startDate.Some? then f.startDate.value else Date(0, 0, 0, 0) }
  function EndOf(f: JobFilters): Date { if f.endDate.Some? then f.endDate.value else Date(0, 0, 0, 0) }

  /** Every condition of the filters a job must meet. */
  predicate Kept(f: JobFilters, j: Job)
  {
    (!Active(f.status) || j.status == f.status.value)
    && (!Active(f.customerId) || j.customerId == f.customerId.value)
    && (!SearchOn(f) || Searched(j, f.search.value))
    && (f.startDate.None? || DateLe(f.startDate.value, j.pickupDate))
    && (f.endDate.None? || DateLe(j.pickupDate, f.endDate.value))
  }

  /** A stage after a filter is one filter by both conditions. */
  lemma StageAfterFilter(jobs: seq<Job>, before: Job -> bool, on: bool, p: Job -> bool, both: Job -> bool)
    requires forall j :: both(j) == (before(j) && (!on || p(j)))
    ensures Stage(Filter(jobs, before), on, p) == Filter(jobs, both)
  {
    if on {
      FilterFilter(jobs, before, p, both);
    } else {
      FilterSame(jobs, before, both);
    }
  }

  function UpTo(f: JobFilters, n: nat): Job -> bool
  {
    (j: Job) =>
      (n < 1 || !Active(f.status) || j.status == f.status.value)
      && (n < 2 || !Active(f.customerId) || j.customerId == f.customerId.value)
      && (n < 3 || !SearchOn(f) || Searched(j, f.search.value))
      && (n < 4 || f.startDate.None? || DateLe(f.startDate.value, j.pickupDate))
      && (n < 5 || f.endDate.None? || DateLe(j.pickupDate, f.endDate.value))
  }

  lemma StatusStage(jobs: seq<Job>, f: JobFilters)
    ensures Stage(jobs, Active(f.status), WithStatus(StatusOf(f))) == Filter(jobs, UpTo(f, 1))
  {
    FilterAll(jobs, UpTo(f, 0));
    StageAfterFilter(jobs, UpTo(f, 0), Active(f.status), WithStatus(StatusOf(f)), UpTo(f, 1));
  }

  lemma CustomerStage(jobs: seq<Job>, f: JobFilters)
    ensures Stage(Filter(jobs, UpTo(f, 1)), Active(f.customerId), WithCustomer(CustomerOf(f))) == Filter(jobs, UpTo(f, 2))
  {
    StageAfterFilter(jobs, UpTo(f, 1), Active(f.customerId), WithCustomer(CustomerOf(f)), UpTo(f, 2));
  }

  lemma SearchStage(jobs: seq<Job>, f: JobFilters)
    ensures Stage(Filter(jobs, UpTo(f, 2)), SearchOn(f), WithSearch(SearchOf(f))) == Filter(jobs, UpTo(f, 3))
  {
    StageAfterFilter(jobs, UpTo(f, 2), SearchOn(f), WithSearch(SearchOf(f)), UpTo(f, 3));
  }

  lemma StartStage(jobs: seq<Job>, f: JobFilters)
    ensures Stage(Filter(jobs, UpTo(f, 3)), f.startDate.Some?, PickupFrom(StartOf(f))) == Filter(jobs, UpTo(f, 4))
  {
    StageAfterFilter(jobs, UpTo(f, 3), f.startDate.Some?, PickupFrom(StartOf(f)), UpTo(f, 4));
  }

  lemma EndStage(jobs: seq<Job>, f: JobFilters)
    ensures Stage(Filter(jobs, UpTo(f, 4)), f.endDate.Some?, PickupUntil(EndOf(f))) == Filter(jobs, UpTo(f, 5))
  {
    StageAfterFilter(jobs, UpTo(f, 4), f.endDate.Some?, PickupUntil(EndOf(f)), UpTo(f, 5));
  }

  /** The five filter steps of `JobsGetAll` are one filter by all their conditions. */
  lemma JobsGetAllIs(jobs: seq<Job>, f: JobFilters)
    ensures JobsGetAll(jobs, f) == Filter(jobs, UpTo(f, 5))
  {
    StatusStage(jobs, f);
    CustomerStage(jobs, f);
    SearchStage(jobs, f);
    StartStage(jobs, f);
    EndStage(jobs, f);
  }

  /**
   * The job list holds exactly the loaded jobs that meet every active
   * filter, with inclusive pickup-date bounds, in the loaded order.
   */
  lemma JobsGetAllSpec(jobs: seq<Job>, f: JobFilters, j: Job)
    ensures j in JobsGetAll(jobs, f) <==> j in jobs && Kept(f, j)
    ensures Subsequence(JobsGetAll(jobs, f), jobs)
  {
    JobsGetAllIs(jobs, f);
    FilterMember(jobs, UpTo(f, 5), j);
    assert UpTo(f, 5)(j) == Kept(f, j);
    FilterSubsequence(jobs, UpTo(f, 5));
  }
}
