/**
 * The records the application keeps in its document store, reduced to the
 * fields the modelled logic reads or writes. Money and quantities are whole
 * numbers (minor units); a `Date` is an instant in the browser's time zone,
 * held as (year, month 0-11, day, milliseconds since local midnight).
 */
module Domain {
  import opened Base
  import opened Text

  datatype Role = Admin | Manager | Ops | Finance | Sales

  function RoleName(r: Role): string
  {
    match r
    case Admin => "admin"
    case Manager => "manager"
    case Ops => "ops"
    case Finance => "finance"
    case Sales => "sales"
  }

  /** The signed-in user as the pages see them. */
  datatype Actor = Actor(uid: string, name: string, role: Role)

  datatype TrackingStep =
    | Created | Confirmed | VehicleAssigned | PickupScheduled | PickedUp
    | InTransit | Delivered | Invoiced | PaymentReceived

  /** The identifier a step is stored under. */
  function StepName(s: TrackingStep): string
  {
    match s
    case Created => "created"
    case Confirmed => "confirmed"
    case VehicleAssigned => "vehicle-assigned"
    case PickupScheduled => "pickup-scheduled"
    case PickedUp => "picked-up"
    case InTransit => "in-transit"
    case Delivered => "delivered"
    case Invoiced => "invoiced"
    case PaymentReceived => "payment-received"
  }

  /**
   * An instant in the browser's time zone: the calendar day as
   * `getFullYear`, `getMonth` (0-11) and `getDate` give it, and the
   * milliseconds since that day's local midnight.
   */
  datatype Date = Date(year: nat, month: nat, day: nat, millis: nat)

  /** Chronological order on instants (`a <= b` on `Date` objects, which compares `getTime()`). */
  predicate DateLe(a: Date, b: Date)
  {
    a.year < b.year
    || (a.year == b.year && (a.month < b.month
    || (a.month == b.month && (a.day < b.day
    || (a.day == b.day && a.millis <= b.millis)))))
  }

  /** The `yyyy-mm-dd` day of a date in years 0-9999, written where the source writes `toISOString().split('T')[0]`; the day is the local one. */
  function IsoDay(d: Date): string
  {
    PadStart(NatToString(d.year), 4, '0') + "-" + PadStart(NatToString(d.month + 1), 2, '0')
      + "-" + PadStart(NatToString(d.day), 2, '0')
  }

  /**
   * A job. `status` is the free-form job status (`draft`, `confirmed`,
   * `in-transit`, `delivered`, `invoiced`, `payment-received`); the current
   * tracking step is separate and may be unset. Time stamps are whole days.
   */
  datatype Job = Job(
    id: string,
    jobNumber: string,
    customerId: string,
    customerName: string,
    vehicleId: string,
    status: string,
    currentTrackingStep: Option<TrackingStep>,
    startDate: Date,
    pickupDate: Date,
    revenue: int,
    paymentReceivedDate: Option<int>,
    updatedAt: int)

  /** A vehicle; `kind` is the record's `type` field. */
  datatype Vehicle = Vehicle(
    id: string,
    headPlate: string,
    tailPlate: string,
    brand: string,
    kind: string,
    capacity: int,
    status: string,
    createdAt: Option<Date>,
    updatedAt: Option<Date>)

  datatype Driver = Driver(
    id: string,
    name: string,
    licenseNo: string,
    phone: string,
    assignedVehicleId: string,
    status: string,
    createdAt: Option<Date>)

  datatype Customer = Customer(
    id: string,
    name: string,
    address: string,
    contactName: string,
    phone: string,
    email: string,
    paymentTermDays: int,
    creditLimit: int,
    createdAt: Option<Date>)

  datatype Surcharge = Surcharge(name: string, amount: int)

  datatype Rate = Rate(
    id: string,
    routeFrom: string,
    routeTo: string,
    vehicleType: string,
    baseRate: int,
    perKmRate: int,
    surcharges: seq<Surcharge>,
    effectiveDate: Option<Date>)

  datatype Part = Part(id: string, partName: string, category: string, unit: string, description: string)

  /**
   * A route of the routes page; distance (km) and duration (hours) are whole
   * numbers, `createdAt` and `updatedAt` are ISO date-time strings.
   */
  datatype Route = Route(
    id: string,
    routeName: string,
    origin: string,
    destination: string,
    distance: int,
    estimatedDuration: int,
    notes: string,
    status: string,
    createdAt: string,
    updatedAt: Option<string>)

  /**
   * An invoice; `status` is `unpaid`, `partial` or `paid`. Dates are whole
   * days; money is in minor units.
   */
  datatype Invoice = Invoice(
    id: string,
    invoiceNumber: string,
    customerId: string,
    customerName: string,
    customerAddress: string,
    customerPhone: string,
    jobIds: seq<string>,
    totalAmount: int,
    paidAmount: int,
    outstandingAmount: int,
    status: string,
    issuedDate: int,
    dueDate: int,
    createdBy: string,
    createdByName: string,
    updatedAt: int)

  /**
   * An entry of the `deletion_logs` collection. Fields a writer leaves out
   * are `None`; `success` is absent from the entries the tracking page writes.
   */
  datatype DeletionLog = DeletionLog(
    photoId: Option<string>,
    jobId: Option<string>,
    storagePath: string,
    deletedAt: int,
    reason: string,
    success: Option<bool>,
    deletedBy: Option<string>)
}
