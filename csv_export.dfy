/**
 * The CSV writer of exportTemplates.ts: cell escaping in the style of
 * RFC 4180, section 2, rules 5-7, the header-plus-rows layout, the six
 * import templates and the export row builders.
 *
 * A reader for the same dialect is the writer's partner: every exported
 * file (with at least one row, each row holding a cell) reads back as its
 * header and rows.
 */
module Csv {
  import opened Base
  import opened Text
  import opened Seqs
  import opened Domain
  import opened Templates

  // ---------------------------------------------------------------- writer

  /** A cell is quoted when it holds a comma, a double quote or a line feed (a lone CR does not count). */
  predicate NeedsQuoting(v: string)
  {
    ',' in v || '"' in v || '\n' in v
  }

  /** `value.replace(/"/g, '""')`. */
  function Double(v: string): (r: string)
    ensures |r| >= |v|
    ensures '"' !in v ==> r == v
  {
    if v == [] then [] else (if v[0] == '"' then "\"\"" else [v[0]]) + Double(v[1..])
  }

  /** `escapeCsvValue`. */
  function Escape(v: string): string
  {
    if NeedsQuoting(v) then "\"" + Double(v) + "\"" else v
  }

  /** One line: the escaped cells joined by commas. */
  function Row(cells: seq<string>): string
  {
    Join(Map(cells, Escape), ",")
  }

  /** Lines joined by line feeds, with none after the last. */
  function Lines(rows: seq<seq<string>>): string
  {
    Join(Map(rows, Row), "\n")
  }

  /** `convertToCSV`. */
  function ConvertToCsv(headers: seq<string>, rows: seq<seq<string>>): string
  {
    Row(headers) + "\n" + Lines(rows)
  }

  /**
   * A cell is left alone exactly when it needs no quoting, and an altered
   * cell is wrapped in double quotes; a carriage return alone changes nothing.
   */
  lemma EscapeSpec(v: string)
    ensures Escape(v) == v <==> !NeedsQuoting(v)
    ensures NeedsQuoting(v) ==> |Escape(v)| >= 2 && Escape(v)[0] == '"' && Escape(v)[|Escape(v)| - 1] == '"'
    ensures '\r' in v && !NeedsQuoting(v) ==> Escape(v) == v
  {
  }

  /** Without rows the file is the header line and one line feed. */
  lemma EmptyExport(headers: seq<string>)
    ensures ConvertToCsv(headers, []) == Row(headers) + "\n"
  {
  }

  /** One more row adds one line feed and that row's line at the end, and nothing after it. */
  lemma ConvertSnoc(headers: seq<string>, rows: seq<seq<string>>, row: seq<string>)
    requires rows != []
    ensures ConvertToCsv(headers, rows + [row]) == ConvertToCsv(headers, rows) + "\n" + Row(row)
  {
    JoinSnoc(Map(rows, Row), Row(row), "\n");
    assert Map(rows + [row], Row) == Map(rows, Row) + [Row(row)];
  }

  lemma {:induction false} JoinSnoc(parts: seq<string>, last: string, sep: string)
    requires parts != []
    ensures Join(parts + [last], sep) == Join(parts, sep) + sep + last
  {
    if |parts| == 1 {
      assert (parts + [last])[1..] == [last];
    } else {
      assert (parts + [last])[1..] == parts[1..] + [last];
      JoinSnoc(parts[1..], last, sep);
    }
  }

  // ---------------------------------------------------------------- reader

  /** Reads a quoted cell after its opening quote: `""` stands for `"`, a lone `"` closes it. */
  function ParseQuoted(s: string): (r: Option<(string, string)>)
    ensures r.Some? ==> |r.value.1| < |s|
  {
    if s == [] then None
    else if s[0] == '"' then
      if |s| >= 2 && s[1] == '"' then
        match ParseQuoted(s[2..])
        case None => None
        case Some((f, rest)) => Some(("\"" + f, rest))
      else Some(("", s[1..]))
    else
      match ParseQuoted(s[1..])
      case None => None
      case Some((f, rest)) => Some(([s[0]] + f, rest))
  }

  /** Reads an unquoted cell up to the next comma or line feed. */
  function ParseUnquoted(s: string): (r: (string, string))
    ensures r.0 + r.1 == s
    ensures r.1 == [] || r.1[0] == ',' || r.1[0] == '\n'
  {
    if s == [] || s[0] == ',' || s[0] == '\n' then ("", s)
    else
      var (f, rest) := ParseUnquoted(s[1..]);
      ([s[0]] + f, rest)
  }

  function ParseField(s: string): (r: Option<(string, string)>)
    ensures r.Some? ==> |r.value.1| <= |s|
  {
    if s != [] && s[0] == '"' then ParseQuoted(s[1..]) else Some(ParseUnquoted(s))
  }

  /** Reads the rest of a file, `cur` being the cells read so far on this line and `done` the lines before it. */
  function Parse(s: string, cur: seq<string>, done: seq<seq<string>>): Option<seq<seq<string>>>
    decreases |s|
  {
    match ParseField(s)
    case None => None
    case Some((f, rest)) =>
      if rest == [] then Some(done + [cur + [f]])
      else if rest[0] == ',' then Parse(rest[1..], cur + [f], done)
      else if rest[0] == '\n' then Parse(rest[1..], [], done + [cur + [f]])
      else None
  }

  /** Reads a whole file into its lines of cells; `None` for a malformed quoted cell. */
  function ParseCsv(s: string): Option<seq<seq<string>>>
  {
    Parse(s, [], [])
  }

  /** What the reader does after a line's last cell: stop at the end, or start the next line. */
  function AfterLine(t: string, cur: seq<string>, done: seq<seq<string>>): Option<seq<seq<string>>>
  {
    if t == [] then Some(done + [cur]) else Parse(t[1..], [], done + [cur])
  }

  lemma {:induction false} QuotedRoundTrip(c: string, t: string)
    requires t == [] || t[0] != '"'
    ensures ParseQuoted(Double(c) + "\"" + t) == Some((c, t))
  {
    if c == [] {
      assert Double(c) + "\"" + t == "\"" + t;
    } else {
      QuotedRoundTrip(c[1..], t);
      if c[0] == '"' {
        QuotedQuoteStep(c, t);
      } else {
        QuotedCharStep(c, t);
      }
    }
  }

  /** A doubled quote at the front reads back as one quote before the rest of the cell. */
  lemma QuotedQuoteStep(c: string, t: string)
    requires c != [] && c[0] == '"'
    requires ParseQuoted(Double(c[1..]) + "\"" + t) == Some((c[1..], t))
    ensures ParseQuoted(Double(c) + "\"" + t) == Some((c, t))
  {
    var s := Double(c) + "\"" + t;
    assert s == "\"\"" + (Double(c[1..]) + "\"" + t);
    assert s[2..] == Double(c[1..]) + "\"" + t;
    assert "\"" + c[1..] == c;
  }

  /** Any other character at the front reads back as itself before the rest of the cell. */
  lemma QuotedCharStep(c: string, t: string)
    requires c != [] && c[0] != '"'
    requires ParseQuoted(Double(c[1..]) + "\"" + t) == Some((c[1..], t))
    ensures ParseQuoted(Double(c) + "\"" + t) == Some((c, t))
  {
    var s := Double(c) + "\"" + t;
    assert s == [c[0]] + (Double(c[1..]) + "\"" + t);
    assert s[1..] == Double(c[1..]) + "\"" + t;
    assert [c[0]] + c[1..] == c;
  }

  lemma {:induction false} UnquotedRoundTrip(c: string, t: string)
    requires ',' !in c && '\n' !in c
    requires t == [] || t[0] == ',' || t[0] == '\n'
    ensures ParseUnquoted(c + t) == (c, t)
  {
    if c != [] {
      assert (c + t)[1..] == c[1..] + t;
      UnquotedRoundTrip(c[1..], t);
      assert [c[0]] + c[1..] == c;
    } else {
      assert c + t == t;
    }
  }

  /** An escaped cell followed by a separator (or nothing) reads back as the cell. */
  lemma CellRoundTrip(c: string, t: string)
    requires t == [] || t[0] == ',' || t[0] == '\n'
    ensures ParseField(Escape(c) + t) == Some((c, t))
  {
    if NeedsQuoting(c) {
      QuotedRoundTrip(c, t);
      QuotedField(c, t);
    } else {
      UnquotedRoundTrip(c, t);
      PlainField(c, t);
    }
  }

  /** A quoted cell is read from after its opening quote. */
  lemma QuotedField(c: string, t: string)
    requires NeedsQuoting(c)
    ensures ParseField(Escape(c) + t) == ParseQuoted(Double(c) + "\"" + t)
  {
    var s := Escape(c) + t;
    assert s == "\"" + (Double(c) + "\"" + t);
    assert s[1..] == Double(c) + "\"" + t;
  }

  /** A cell without a comma, quote or line feed is read as an unquoted cell. */
  lemma PlainField(c: string, t: string)
    requires !NeedsQuoting(c)
    requires t == [] || t[0] == ',' || t[0] == '\n'
    ensures ParseField(Escape(c) + t) == Some(ParseUnquoted(c + t))
  {
    if c != [] {
      assert (c + t)[0] == c[0];
    } else {
      assert c + t == t;
    }
  }

  /** A line of two or more cells is the first escaped cell, a comma and the line of the others. */
  lemma RowCons(cells: seq<string>)
    requires |cells| >= 2
    ensures Row(cells) == Escape(cells[0]) + "," + Row(cells[1..])
  {
    assert Map(cells, Escape)[1..] == Map(cells[1..], Escape);
  }

  lemma {:induction false} RowRoundTrip(cells: seq<string>, t: string, cur: seq<string>, done: seq<seq<string>>)
    requires |cells| >= 1
    requires t == [] || t[0] == '\n'
    ensures Parse(Row(cells) + t, cur, done) == AfterLine(t, cur + cells, done)
  {
    if |cells| == 1 {
      assert Row(cells) == Escape(cells[0]);
      CellRoundTrip(cells[0], t);
      assert cur + cells == cur + [cells[0]];
    } else {
      RowHead(cells, t, cur, done);
      RowRoundTrip(cells[1..], t, cur + [cells[0]], done);
      assert cur + [cells[0]] + cells[1..] == cur + cells;
    }
  }

  /** The first cell of a longer line is read, and the reader goes on with the others on the same line. */
  lemma RowHead(cells: seq<string>, t: string, cur: seq<string>, done: seq<seq<string>>)
    requires |cells| >= 2
    requires t == [] || t[0] == '\n'
    ensures Parse(Row(cells) + t, cur, done) == Parse(Row(cells[1..]) + t, cur + [cells[0]], done)
  {
    var tail := cells[1..];
    RowCons(cells);
    var rest := "," + Row(tail) + t;
    assert Row(cells) + t == Escape(cells[0]) + rest;
    CellRoundTrip(cells[0], rest);
    assert rest[1..] == Row(tail) + t;
    CommaStep(Escape(cells[0]) + rest, cells[0], rest, cur, done);
  }

  /** A cell followed by a comma: the reader goes on with the same line. */
  lemma CommaStep(s: string, f: string, rest: string, cur: seq<string>, done: seq<seq<string>>)
    requires ParseField(s) == Some((f, rest)) && rest != [] && rest[0] == ','
    ensures Parse(s, cur, done) == Parse(rest[1..], cur + [f], done)
  {
  }

  lemma {:induction false} LinesRoundTrip(rows: seq<seq<string>>, done: seq<seq<string>>)
    requires |rows| >= 1
    requires forall i :: 0 <= i < |rows| ==> |rows[i]| >= 1
    ensures Parse(Lines(rows), [], done) == Some(done + rows)
  {
    var m := Map(rows, Row);
    if |rows| == 1 {
      assert Lines(rows) == Row(rows[0]) + "";
      RowRoundTrip(rows[0], "", [], done);
      assert [] + rows[0] == rows[0];
      assert done + [rows[0]] == done + rows;
    } else {
      var tail := rows[1..];
      assert m[1..] == Map(tail, Row);
      var t := "\n" + Lines(tail);
      assert Lines(rows) == Row(rows[0]) + t;
      RowRoundTrip(rows[0], t, [], done);
      assert t[1..] == Lines(tail);
      assert [] + rows[0] == rows[0];
      LinesRoundTrip(tail, done + [rows[0]]);
      assert done + [rows[0]] + tail == done + rows;
    }
  }

  /**
   * Reading an exported file gives back its header and its rows, provided
   * there is at least one row and every line has a cell.
   */
  lemma ConvertRoundTrip(headers: seq<string>, rows: seq<seq<string>>)
    requires |headers| >= 1 && |rows| >= 1
    requires forall i :: 0 <= i < |rows| ==> |rows[i]| >= 1
    ensures ParseCsv(ConvertToCsv(headers, rows)) == Some([headers] + rows)
  {
    var all := [headers] + rows;
    var m := Map(all, Row);
    assert m[0] == Row(headers);
    assert m[1..] == Map(rows, Row);
    assert Lines(all) == m[0] + "\n" + Join(m[1..], "\n");
    assert Lines(all) == ConvertToCsv(headers, rows);
    assert forall i :: 0 <= i < |all| ==> |all[i]| >= 1 by {
      forall i | 0 <= i < |all| ensures |all[i]| >= 1 {
        if i > 0 {
          assert all[i] == rows[i - 1];
        }
      }
    }
    LinesRoundTrip(all, []);
    assert [] + all == all;
  }

  /** With no rows the trailing line feed reads back as one extra line holding one empty cell. */
  lemma EmptyExportReadsExtraLine(headers: seq<string>)
    requires |headers| >= 1
    ensures ParseCsv(ConvertToCsv(headers, [])) == Some([headers, [""]])
  {
    RowRoundTrip(headers, "\n", [], []);
    assert ConvertToCsv(headers, []) == Row(headers) + "\n";
    assert "\n"[1..] == "";
    assert [] + headers == headers;
    assert ParseUnquoted("") == ("", "");
    assert ParseField("") == Some(("", ""));
    assert [] + [[] + headers] == [headers];
    assert Parse("", [], [headers]) == Some([headers] + [[] + [""]]);
    var empty: seq<string> := [];
    assert empty + [""] == [""];
    assert [headers] + [[""]] == [headers, [""]];
  }

  /** The `download*Template` content: the template's headers and sample rows. */
  function TemplateCsv(t: Template): string
  {
    ConvertToCsv(t.headers, t.sampleData)
  }

  /** A template file reads back as its headers and sample rows. */
  lemma TemplateRoundTrip(t: Template)
    requires |t.headers| >= 1 && |t.sampleData| >= 1 && Rectangular(t)
    ensures ParseCsv(TemplateCsv(t)) == Some([t.headers] + t.sampleData)
  {
    ConvertRoundTrip(t.headers, t.sampleData);
  }

  /** Each of the six downloadable templates reads back as its headers and sample rows. */
  lemma TemplatesReadBack()
    ensures ParseCsv(TemplateCsv(VehicleTemplate())) == Some([VehicleTemplate().headers] + VehicleTemplate().sampleData)
    ensures ParseCsv(TemplateCsv(DriverTemplate())) == Some([DriverTemplate().headers] + DriverTemplate().sampleData)
    ensures ParseCsv(TemplateCsv(CustomerTemplate())) == Some([CustomerTemplate().headers] + CustomerTemplate().sampleData)
    ensures ParseCsv(TemplateCsv(RouteTemplate())) == Some([RouteTemplate().headers] + RouteTemplate().sampleData)
    ensures ParseCsv(TemplateCsv(RateTemplate())) == Some([RateTemplate().headers] + RateTemplate().sampleData)
    ensures ParseCsv(TemplateCsv(PartTemplate())) == Some([PartTemplate().headers] + PartTemplate().sampleData)
  {
    VehicleTemplateRectangular();
    TemplateRoundTrip(VehicleTemplate());
    DriverTemplateRectangular();
    TemplateRoundTrip(DriverTemplate());
    CustomerTemplateRectangular();
    TemplateRoundTrip(CustomerTemplate());
    RouteTemplateRectangular();
    TemplateRoundTrip(RouteTemplate());
    RateTemplateRectangular();
    TemplateRoundTrip(RateTemplate());
    PartTemplateRectangular();
    TemplateRoundTrip(PartTemplate());
  }

  // --------------------------------------------------------------- exports

  /** `d?.toISOString().split('T')[0] || ''`. */
  function DayOrEmpty(d: Option<Date>): string
  {
    if d.Some? then IsoDay(d.value) else ""
  }

  const VehicleExportHeaders: seq<string> := [
    "Head Plate (ทะเบียนหัว)", "Tail Plate (ทะเบียนหาง)", "Brand (ยี่ห้อ)", "Type (ประเภท)",
    "Capacity (ความจุ-ตัน)", "Status (สถานะ)", "Created At (วันที่สร้าง)", "Updated At (วันที่อัปเดต)"]

  function VehicleRow(v: Vehicle): seq<string>
  {
    [v.headPlate, v.tailPlate, v.brand, v.kind, IntToString(v.capacity), v.status,
     DayOrEmpty(v.createdAt), DayOrEmpty(v.updatedAt)]
  }

  /** `exportVehiclesToCSV` without the download. */
  function ExportVehicles(vehicles: seq<Vehicle>): string
  {
    ConvertToCsv(VehicleExportHeaders, Map(vehicles, VehicleRow))
  }

  const DriverExportHeaders: seq<string> := [
    "Name (ชื่อ)", "License No (เลขที่ใบขับขี่)", "Phone (เบอร์โทรศัพท์)",
    "Assigned Vehicle (ทะเบียนหัวรถ)", "Status (สถานะ)", "Created At (วันที่สร้าง)"]

  /** `new Map(vehicles.map(v => [v.id, v.headPlate])).get(id) || ''`: a later vehicle with the same id wins. */
  function PlateFor(vehicles: seq<Vehicle>, id: string): string
  {
    if vehicles == [] then ""
    else if vehicles[|vehicles| - 1].id == id then vehicles[|vehicles| - 1].headPlate
    else PlateFor(vehicles[..|vehicles| - 1], id)
  }

  /** No vehicle carrying the id gives the empty plate. */
  lemma {:induction false} PlateForMissing(vehicles: seq<Vehicle>, id: string)
    requires forall i :: 0 <= i < |vehicles| ==> vehicles[i].id != id
    ensures PlateFor(vehicles, id) == ""
  {
    if vehicles != [] {
      var n := |vehicles| - 1;
      assert forall i :: 0 <= i < n ==> vehicles[..n][i].id != id by {
        forall i | 0 <= i < n ensures vehicles[..n][i].id != id {
          assert vehicles[..n][i] == vehicles[i];
        }
      }
      PlateForMissing(vehicles[..n], id);
    }
  }

  /** The plate is that of the last vehicle carrying the id. */
  lemma {:induction false} PlateForLast(vehicles: seq<Vehicle>, id: string, j: int)
    requires 0 <= j < |vehicles| && vehicles[j].id == id
    requires forall k :: j < k < |vehicles| ==> vehicles[k].id != id
    ensures PlateFor(vehicles, id) == vehicles[j].headPlate
  {
    var n := |vehicles| - 1;
    if j < n {
      assert vehicles[n].id != id;
      assert vehicles[..n][j] == vehicles[j];
      assert forall k :: j < k < n ==> vehicles[..n][k].id != id by {
        forall k | j < k < n ensures vehicles[..n][k].id != id {
          assert vehicles[..n][k] == vehicles[k];
        }
      }
      PlateForLast(vehicles[..n], id, j);
    }
  }

  function DriverRow(d: Driver, vehicles: seq<Vehicle>): seq<string>
  {
    [d.name, d.licenseNo, d.phone, PlateFor(vehicles, d.assignedVehicleId), d.status, DayOrEmpty(d.createdAt)]
  }

  /** `exportDriversToCSV` without the download. */
  function ExportDrivers(drivers: seq<Driver>, vehicles: seq<Vehicle>): string
  {
    ConvertToCsv(DriverExportHeaders, Map(drivers, (d: Driver) => DriverRow(d, vehicles)))
  }

  const CustomerExportHeaders: seq<string> := [
    "Name (ชื่อลูกค้า)", "Address (ที่อยู่)", "Contact Name (ชื่อผู้ติดต่อ)", "Phone (เบอร์โทรศัพท์)",
    "Email (อีเมล)", "Payment Term Days (ระยะเวลาชำระ-วัน)", "Credit Limit (วงเงินเครดิต)", "Created At (วันที่สร้าง)"]

  function CustomerRow(c: Customer): seq<string>
  {
    [c.name, c.address, c.contactName, c.phone, c.email, IntToString(c.paymentTermDays),
     IntToString(c.creditLimit), DayOrEmpty(c.createdAt)]
  }

  /** `exportCustomersToCSV` without the download. */
  function ExportCustomers(customers: seq<Customer>): string
  {
    ConvertToCsv(CustomerExportHeaders, Map(customers, CustomerRow))
  }

  const RateExportHeaders: seq<string> := [
    "Route From (ต้นทาง)", "Route To (ปลายทาง)", "Vehicle Type (ประเภทรถ)", "Base Rate (อัตราพื้นฐาน)",
    "Per Km Rate (อัตราต่อกม)", "Surcharges (ค่าใช้จ่ายเพิ่ม)", "Effective Date (วันที่มีผล)"]

  function SurchargeItem(s: Surcharge): string
  {
    s.name + ": " + IntToString(s.amount)
  }

  /** The surcharges cell: `name: amount` items joined by `; `. */
  function SurchargeText(ss: seq<Surcharge>): string
  {
    Join(Map(ss, SurchargeItem), "; ")
  }

  /** No surcharge gives an empty cell; each further surcharge adds `; name: amount` at the end. */
  lemma SurchargeTextGrows(ss: seq<Surcharge>, s: Surcharge)
    ensures SurchargeText([]) == ""
    ensures SurchargeText([s]) == s.name + ": " + IntToString(s.amount)
    ensures ss != [] ==> SurchargeText(ss + [s]) == SurchargeText(ss) + "; " + s.name + ": " + IntToString(s.amount)
  {
    if ss != [] {
      assert Map(ss + [s], SurchargeItem) == Map(ss, SurchargeItem) + [SurchargeItem(s)];
      JoinSnoc(Map(ss, SurchargeItem), SurchargeItem(s), "; ");
    }
  }

  function RateRow(r: Rate): seq<string>
  {
    [r.routeFrom, r.routeTo, r.vehicleType, IntToString(r.baseRate), IntToString(r.perKmRate),
     SurchargeText(r.surcharges), DayOrEmpty(r.effectiveDate)]
  }

  /** `exportRatesToCSV` without the download. */
  function ExportRates(rates: seq<Rate>): string
  {
    ConvertToCsv(RateExportHeaders, Map(rates, RateRow))
  }

  const PartExportHeaders: seq<string> := [
    "Part Name (ชื่ออะไหล่)", "Category (หมวดหมู่)", "Unit (หน่วย)", "Description (รายละเอียด)"]

  function PartRow(p: Part): seq<string>
  {
    [p.partName, p.category, p.unit, p.description]
  }

  /** `exportPartsToCSV` without the download. */
  function ExportParts(parts: seq<Part>): string
  {
    ConvertToCsv(PartExportHeaders, Map(parts, PartRow))
  }

  const RouteExportHeaders: seq<string> := [
    "Route Name (ชื่อเส้นทาง)", "Origin (ต้นทาง)", "Destination (ปลายทาง)", "Distance (ระยะทาง-กม)",
    "Estimated Duration (เวลาโดยประมาณ-ชม)", "Notes (หมายเหตุ)", "Status (สถานะ)", "Created At (วันที่สร้าง)"]

  function RouteRow(r: Route): seq<string>
  {
    [r.routeName, r.origin, r.destination, IntToString(r.distance), IntToString(r.estimatedDuration),
     r.notes, r.status, Split(r.createdAt, 'T')[0]]
  }

  /** `exportRoutesToCSV` without the download. */
  function ExportRoutes(routes: seq<Route>): string
  {
    ConvertToCsv(RouteExportHeaders, Map(routes, RouteRow))
  }

  /** The download name, `{kind}_export_{YYYY-MM-DD}.csv`. */
  function ExportFileName(kind: string, today: Date): string
  {
    kind + "_export_" + IsoDay(today) + ".csv"
  }

  /**
   * The vehicles export has one row per record, in input order, each with one
   * cell per header; with a record or more it reads back as the headers and those rows.
   */
  lemma ExportVehiclesShape(vehicles: seq<Vehicle>)
    ensures forall i :: 0 <= i < |vehicles| ==> |VehicleRow(vehicles[i])| == |VehicleExportHeaders|
    ensures |vehicles| >= 1 ==> ParseCsv(ExportVehicles(vehicles)) == Some([VehicleExportHeaders] + Map(vehicles, VehicleRow))
  {
    if |vehicles| >= 1 {
      ConvertRoundTrip(VehicleExportHeaders, Map(vehicles, VehicleRow));
    }
  }

  /**
   * The drivers export has one row per record, in input order, each with one
   * cell per header; with a record or more it reads back as the headers and those rows.
   */
  lemma ExportDriversShape(drivers: seq<Driver>, vehicles: seq<Vehicle>)
    ensures forall i :: 0 <= i < |drivers| ==> |DriverRow(drivers[i], vehicles)| == |DriverExportHeaders|
    ensures |drivers| >= 1 ==> ParseCsv(ExportDrivers(drivers, vehicles)) == Some([DriverExportHeaders] + Map(drivers, (d: Driver) => DriverRow(d, vehicles)))
  {
    if |drivers| >= 1 {
      ConvertRoundTrip(DriverExportHeaders, Map(drivers, (d: Driver) => DriverRow(d, vehicles)));
    }
  }

  /**
   * The customers export has one row per record, in input order, each with one
   * cell per header; with a record or more it reads back as the headers and those rows.
   */
  lemma ExportCustomersShape(customers: seq<Customer>)
    ensures forall i :: 0 <= i < |customers| ==> |CustomerRow(customers[i])| == |CustomerExportHeaders|
    ensures |customers| >= 1 ==> ParseCsv(ExportCustomers(customers)) == Some([CustomerExportHeaders] + Map(customers, CustomerRow))
  {
    if |customers| >= 1 {
      ConvertRoundTrip(CustomerExportHeaders, Map(customers, CustomerRow));
    }
  }

  /**
   * The rates export has one row per record, in input order, each with one
   * cell per header; with a record or more it reads back as the headers and those rows.
   */
  lemma ExportRatesShape(rates: seq<Rate>)
    ensures forall i :: 0 <= i < |rates| ==> |RateRow(rates[i])| == |RateExportHeaders|
    ensures |rates| >= 1 ==> ParseCsv(ExportRates(rates)) == Some([RateExportHeaders] + Map(rates, RateRow))
  {
    if |rates| >= 1 {
      ConvertRoundTrip(RateExportHeaders, Map(rates, RateRow));
    }
  }

  /**
   * The parts export has one row per record, in input order, each with one
   * cell per header; with a record or more it reads back as the headers and those rows.
   */
  lemma ExportPartsShape(parts: seq<Part>)
    ensures forall i :: 0 <= i < |parts| ==> |PartRow(parts[i])| == |PartExportHeaders|
    ensures |parts| >= 1 ==> ParseCsv(ExportParts(parts)) == Some([PartExportHeaders] + Map(parts, PartRow))
  {
    if |parts| >= 1 {
      ConvertRoundTrip(PartExportHeaders, Map(parts, PartRow));
    }
  }

  /**
   * The routes export has one row per record, in input order, each with one
   * cell per header; with a record or more it reads back as the headers and those rows.
   */
  lemma ExportRoutesShape(routes: seq<Route>)
    ensures forall i :: 0 <= i < |routes| ==> |RouteRow(routes[i])| == |RouteExportHeaders|
    ensures |routes| >= 1 ==> ParseCsv(ExportRoutes(routes)) == Some([RouteExportHeaders] + Map(routes, RouteRow))
  {
    if |routes| >= 1 {
      ConvertRoundTrip(RouteExportHeaders, Map(routes, RouteRow));
    }
  }
}
