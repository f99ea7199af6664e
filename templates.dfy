/**
 * The six import templates of exportTemplates.ts: the file name, the
 * header row and three sample rows of each.
 */
module Templates {
  datatype Template = Template(filename: string, headers: seq<string>, sampleData: seq<seq<string>>)

  /** Every sample row has one cell per header. */
  predicate Rectangular(t: Template)
  {
    forall i :: 0 <= i < |t.sampleData| ==> |t.sampleData[i]| == |t.headers|
  }

  function VehicleTemplate(): Template
  {
    Template("vehicles_template.csv", VehicleHeaders(), VehicleSamples())
  }

  function VehicleHeaders(): (r: seq<string>)
    ensures |r| == 6
  {
    ["Head Plate (ทะเบียนหัว)", "Tail Plate (ทะเบียนหาง)", "Brand (ยี่ห้อ: Hino/PRY/Other)",
     "Type (ประเภท)", "Capacity (ความจุ-ตัน)", "Status (สถานะ: active/inactive/maintenance)"]
  }

  function VehicleSamples(): (r: seq<seq<string>>)
    ensures |r| == 3 && |r[0]| == 6 && |r[1]| == 6 && |r[2]| == 6
  {
    [["80-1234", "81-5678", "Hino", "10-Wheeler", "10", "active"],
     ["82-9012", "83-3456", "PRY", "6-Wheeler", "6", "active"],
     ["84-7890", "", "Other", "Pickup", "1.5", "inactive"]]
  }

  function DriverTemplate(): Template
  {
    Template("drivers_template.csv", DriverHeaders(), DriverSamples())
  }

  function DriverHeaders(): (r: seq<string>)
    ensures |r| == 5
  {
    ["Name (ชื่อ)", "License No (เลขที่ใบขับขี่)", "Phone (เบอร์โทรศัพท์)",
     "Assigned Vehicle Head Plate (ทะเบียนหัวรถ)", "Status (สถานะ: active/inactive)"]
  }

  function DriverSamples(): (r: seq<seq<string>>)
    ensures |r| == 3 && |r[0]| == 5 && |r[1]| == 5 && |r[2]| == 5
  {
    [["สมชาย ใจดี", "12345678", "081-234-5678", "80-1234", "active"],
     ["สมศักดิ์ รักงาน", "87654321", "082-345-6789", "82-9012", "active"],
     ["สมหญิง ขยัน", "11223344", "083-456-7890", "", "inactive"]]
  }

  function CustomerTemplate(): Template
  {
    Template("customers_template.csv", CustomerHeaders(), CustomerSamples())
  }

  function CustomerHeaders(): (r: seq<string>)
    ensures |r| == 7
  {
    ["Name (ชื่อลูกค้า)", "Address (ที่อยู่)", "Contact Name (ชื่อผู้ติดต่อ)", "Phone (เบอร์โทรศัพท์)",
     "Email (อีเมล)", "Payment Term Days (ระยะเวลาชำระ-วัน)", "Credit Limit (วงเงินเครดิต)"]
  }

  function CustomerSamples(): (r: seq<seq<string>>)
    ensures |r| == 3 && |r[0]| == 7 && |r[1]| == 7 && |r[2]| == 7
  {
    [["บริษัท ABC จำกัด", "123 ถนนสุขุมวิท กรุงเทพฯ 10110", "คุณสมชาย", "02-123-4567", "somchai@abc.com", "30", "500000"],
     ["บริษัท XYZ จำกัด", "456 ถนนพระราม 4 กรุงเทพฯ 10500", "คุณสมหญิง", "02-234-5678", "somying@xyz.com", "60", "1000000"],
     ["ร้าน DEF", "789 ถนนรัชดา กรุงเทพฯ 10400", "คุณสมศักดิ์", "02-345-6789", "somsak@def.com", "15", "100000"]]
  }

  function RouteTemplate(): Template
  {
    Template("routes_template.csv", RouteHeaders(), RouteSamples())
  }

  function RouteHeaders(): (r: seq<string>)
    ensures |r| == 6
  {
    ["Route Code (รหัสเส้นทาง)", "From Location (ต้นทาง)", "To Location (ปลายทาง)",
     "Distance (ระยะทาง-กม)", "Estimated Hours (เวลาโดยประมาณ-ชม)", "Description (รายละเอียด)"]
  }

  function RouteSamples(): (r: seq<seq<string>>)
    ensures |r| == 3 && |r[0]| == 6 && |r[1]| == 6 && |r[2]| == 6
  {
    [["BKK-CNX", "กรุงเทพฯ", "เชียงใหม่", "700", "12", "เส้นทางหลักเหนือ"],
     ["BKK-HDY", "กรุงเทพฯ", "หาดใหญ่", "950", "14", "เส้นทางหลักใต้"],
     ["BKK-KKN", "กรุงเทพฯ", "ขอนแก่น", "450", "7", "เส้นทางหลักอีสาน"]]
  }

  function RateTemplate(): Template
  {
    Template("rates_template.csv", RateHeaders(), RateSamples())
  }

  function RateHeaders(): (r: seq<string>)
    ensures |r| == 10
  {
    ["Route From (ต้นทาง)", "Route To (ปลายทาง)", "Vehicle Type (ประเภทรถ)", "Base Rate (อัตราพื้นฐาน)",
     "Per Km Rate (อัตราต่อกม)", "Surcharge Name 1 (ค่าใช้จ่ายเพิ่ม 1)", "Surcharge Amount 1 (จำนวน 1)",
     "Surcharge Name 2 (ค่าใช้จ่ายเพิ่ม 2)", "Surcharge Amount 2 (จำนวน 2)", "Effective Date (วันที่มีผล: YYYY-MM-DD)"]
  }

  function RateSamples(): (r: seq<seq<string>>)
    ensures |r| == 3 && |r[0]| == 10 && |r[1]| == 10 && |r[2]| == 10
  {
    [["กรุงเทพฯ", "เชียงใหม่", "10-Wheeler", "5000", "8.5", "ค่าทางด่วน", "150", "ค่าน้ำมันเพิ่ม", "500", "2024-01-01"],
     ["กรุงเทพฯ", "หาดใหญ่", "6-Wheeler", "4000", "7.0", "ค่าทางด่วน", "100", "", "", "2024-01-01"],
     ["กรุงเทพฯ", "ขอนแก่น", "Pickup", "2000", "5.0", "", "", "", "", "2024-01-01"]]
  }

  function PartTemplate(): Template
  {
    Template("parts_template.csv", PartHeaders(), PartSamples())
  }

  function PartHeaders(): (r: seq<string>)
    ensures |r| == 4
  {
    ["Part Name (ชื่ออะไหล่)", "Category (หมวดหมู่)", "Unit (หน่วย)", "Description (รายละเอียด)"]
  }

  function PartSamples(): (r: seq<seq<string>>)
    ensures |r| == 3 && |r[0]| == 4 && |r[1]| == 4 && |r[2]| == 4
  {
    [["ยางนอก", "ยาง", "เส้น", "ยางนอก 10 ล้อ ขนาด 11.00R20"],
     ["น้ำมันเครื่อง", "น้ำมัน", "ลิตร", "น้ำมันเครื่อง 15W-40"],
     ["แบตเตอรี่", "ไฟฟ้า", "ก้อน", "แบตเตอรี่ 12V 120AH"]]
  }

  /** The vehicle template has 6 headers and three sample rows of that many cells. */
  lemma VehicleTemplateRectangular()
    ensures Rectangular(VehicleTemplate()) && |VehicleTemplate().headers| == 6 && |VehicleTemplate().sampleData| == 3
  {
  }

  /** The driver template has 5 headers and three sample rows of that many cells. */
  lemma DriverTemplateRectangular()
    ensures Rectangular(DriverTemplate()) && |DriverTemplate().headers| == 5 && |DriverTemplate().sampleData| == 3
  {
  }

  /** The customer template has 7 headers and three sample rows of that many cells. */
  lemma CustomerTemplateRectangular()
    ensures Rectangular(CustomerTemplate()) && |CustomerTemplate().headers| == 7 && |CustomerTemplate().sampleData| == 3
  {
  }

  /** The route template has 6 headers and three sample rows of that many cells. */
  lemma RouteTemplateRectangular()
    ensures Rectangular(RouteTemplate()) && |RouteTemplate().headers| == 6 && |RouteTemplate().sampleData| == 3
  {
  }

  /** The rate template has 10 headers and three sample rows of that many cells. */
  lemma RateTemplateRectangular()
    ensures Rectangular(RateTemplate()) && |RateTemplate().headers| == 10 && |RateTemplate().sampleData| == 3
  {
  }

  /** The part template has 4 headers and three sample rows of that many cells. */
  lemma PartTemplateRectangular()
    ensures Rectangular(PartTemplate()) && |PartTemplate().headers| == 4 && |PartTemplate().sampleData| == 3
  {
  }
}
