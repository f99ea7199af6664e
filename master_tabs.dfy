/**
 * The five list tabs of the master-data page (VehiclesTab.tsx,
 * DriversTab.tsx, CustomersTab.tsx, RatesTab.tsx, PartsTab.tsx). Each keeps
 * the loaded records and a filtered copy that its filter step rebuilds, one
 * optional filter after another, whenever the records or the filters
 * change; every rebuild goes back to page one. The vehicles tab also guards
 * editing and the status toggle by role.
 */
module MasterTabs {
  import opened Base
  import opened Text
  import opened Seqs
  import opened Domain
  import opened Paging

  /** `canEdit`: administrators and managers. */
  predicate CanEdit(role: Option<Role>)
  {
    role == Some(Admin) || role == Some(Manager)
  }

  /** `x.toLowerCase().includes(query)` with `query` the lower-cased search. */
  predicate Hit(x: string, search: string)
  {
    Contains(Lower(x), Lower(search))
  }

  // Vehicles

  /** The vehicle search: the head plate, the tail plate or the type holds the search term. */
  predicate VehicleMatch(v: Vehicle, search: string)
  {
    Hit(v.headPlate, search) || Hit(v.tailPlate, search) || Hit(v.kind, search)
  }

  function VehicleHit(search: string): Vehicle -> bool
  {
    (v: Vehicle) => VehicleMatch(v, search)
  }

  function WithBrand(brand: string): Vehicle -> bool
  {
    (v: Vehicle) => v.brand == brand
  }

  function VehicleWithStatus(status: string): Vehicle -> bool
  {
    (v: Vehicle) => v.status == status
  }

  /** Every condition of the vehicle filters: each applies only when it is set. */
  predicate VehicleShown(v: Vehicle, search: string, brandFilter: string, statusFilter: string)
  {
    (search == "" || VehicleMatch(v, search))
    && (brandFilter == "all" || v.brand == brandFilter)
    && (statusFilter == "all" || v.status == statusFilter)
  }

  function VehicleCondition(search: string, brandFilter: string, statusFilter: string): Vehicle -> bool
  {
    (v: Vehicle) => VehicleShown(v, search, brandFilter, statusFilter)
  }

  /** The vehicles the tab lists. */
  function FilteredVehicles(vehicles: seq<Vehicle>, search: string, brandFilter: string, statusFilter: string): seq<Vehicle>
  {
    Filter(vehicles, VehicleCondition(search, brandFilter, statusFilter))
  }

  /** A vehicle is listed exactly when every set filter accepts it, in loaded order. */
  lemma FilteredVehiclesSpec(vehicles: seq<Vehicle>, search: string, brandFilter: string, statusFilter: string, v: Vehicle)
    ensures v in FilteredVehicles(vehicles, search, brandFilter, statusFilter) <==>
      v in vehicles && VehicleShown(v, search, brandFilter, statusFilter)
    ensures Subsequence(FilteredVehicles(vehicles, search, brandFilter, statusFilter), vehicles)
  {
    FilterMember(vehicles, VehicleCondition(search, brandFilter, statusFilter), v);
    FilterSubsequence(vehicles, VehicleCondition(search, brandFilter, statusFilter));
  }

  /** With no search and both filters on `all`, every vehicle is listed. */
  lemma NoVehicleFilterListsAll(vehicles: seq<Vehicle>)
    ensures FilteredVehicles(vehicles, "", "all", "all") == vehicles
  {
    FilterAll(vehicles, VehicleCondition("", "all", "all"));
  }

  /** `vehicle.status === 'active' ? 'inactive' : 'active'`. */
  function ToggledStatus(status: string): string
  {
    if status == "active" then "inactive" else "active"
  }

  /**
   * An active vehicle becomes inactive and every other one becomes active,
   * so a vehicle in maintenance is put back in service; between `active` and
   * `inactive` two toggles are the identity.
   */
  lemma ToggledStatusSpec(status: string)
    ensures ToggledStatus(status) == "inactive" <==> status == "active"
    ensures status == "maintenance" ==> ToggledStatus(status) == "active"
    ensures status in {"active", "inactive"} ==> ToggledStatus(ToggledStatus(status)) == status
    ensures ToggledStatus(ToggledStatus(status)) in {"active", "inactive"}
  {
  }

  /** `vehiclesService.update(id, { status })` as the reload sees it. */
  function SetStatus(vehicles: seq<Vehicle>, id: string, status: string): seq<Vehicle>
  {
    Map(vehicles, (v: Vehicle) => if v.id == id then v.(status := status) else v)
  }

  /** The update changes the status of the vehicles with that id and nothing else. */
  lemma SetStatusSpec(vehicles: seq<Vehicle>, id: string, status: string, i: int)
    requires 0 <= i < |vehicles|
    ensures |SetStatus(vehicles, id, status)| == |vehicles|
    ensures SetStatus(vehicles, id, status)[i] ==
      if vehicles[i].id == id then vehicles[i].(status := status) else vehicles[i]
  {
  }

  function VehicleSearched(search: string): Vehicle -> bool
  {
    (v: Vehicle) => search == "" || VehicleMatch(v, search)
  }

  function VehicleBranded(search: string, brandFilter: string): Vehicle -> bool
  {
    (v: Vehicle) => (search == "" || VehicleMatch(v, search)) && (brandFilter == "all" || v.brand == brandFilter)
  }

  /** The three filter steps of `filterVehicles`, each taken only when its filter is set, make up the one filter. */
  lemma VehicleStages(vehicles: seq<Vehicle>, search: string, brandFilter: string, statusFilter: string)
    ensures var f1 := if search != "" then Filter(vehicles, VehicleHit(search)) else vehicles;
      var f2 := if brandFilter != "all" then Filter(f1, WithBrand(brandFilter)) else f1;
      (if statusFilter != "all" then Filter(f2, VehicleWithStatus(statusFilter)) else f2)
      == FilteredVehicles(vehicles, search, brandFilter, statusFilter)
  {
    var s1, s2 := VehicleSearched(search), VehicleBranded(search, brandFilter);
    forall x ensures s1(x) == (!(search != "") || VehicleHit(search)(x)) { }
    FilterWhen(vehicles, search != "", VehicleHit(search), s1);
    forall x ensures s2(x) == (s1(x) && (!(brandFilter != "all") || WithBrand(brandFilter)(x))) { }
    FilterThenWhen(vehicles, s1, brandFilter != "all", WithBrand(brandFilter), s2);
    var all := VehicleCondition(search, brandFilter, statusFilter);
    forall x ensures all(x) == (s2(x) && (!(statusFilter != "all") || VehicleWithStatus(statusFilter)(x))) { }
    FilterThenWhen(vehicles, s2, statusFilter != "all", VehicleWithStatus(statusFilter), all);
  }

  datatype Permission = ReadOnly | Allowed

  class VehiclesPage {
    var vehicles: seq<Vehicle>
    var filtered: seq<Vehicle>
    var search: string
    var brandFilter: string
    var statusFilter: string
    var currentPage: int
    var dialogOpen: bool
    var editing: Option<Vehicle>

    constructor (vehicles: seq<Vehicle>)
      ensures this.vehicles == vehicles && filtered == vehicles && currentPage == 1
      ensures search == "" && brandFilter == "all" && statusFilter == "all"
      ensures !dialogOpen && editing == None
    {
      this.vehicles := vehicles;
      filtered := vehicles;
      search := "";
      brandFilter := "all";
      statusFilter := "all";
      currentPage := 1;
      dialogOpen := false;
      editing := None;
      NoVehicleFilterListsAll(vehicles);
    }

    /** `filterVehicles`: the search, then the brand, then the status, each only when set; back to page one. */
    method ApplyFilters()
      modifies this
      ensures filtered == FilteredVehicles(vehicles, search, brandFilter, statusFilter) && currentPage == 1
      ensures vehicles == old(vehicles) && search == old(search) && brandFilter == old(brandFilter)
      ensures statusFilter == old(statusFilter) && dialogOpen == old(dialogOpen) && editing == old(editing)
    {
      var all, q, brand, status := vehicles, search, brandFilter, statusFilter;
      var f1 := if q != "" then Filter(all, VehicleHit(q)) else all;
      var f2 := if brand != "all" then Filter(f1, WithBrand(brand)) else f1;
      var f3 := if status != "all" then Filter(f2, VehicleWithStatus(status)) else f2;
      VehicleStages(all, q, brand, status);
      filtered := f3;
      currentPage := 1;
    }

    /** The rows of the current page. */
    function PageRows(): seq<Vehicle>
      reads this
    {
      PageSlice(filtered, currentPage, RowsPerPage)
    }

    /** `handleEdit`: refused unless the role may edit. */
    method Edit(role: Option<Role>, v: Vehicle) returns (p: Permission)
      modifies this
      ensures p == Allowed <==> CanEdit(role)
      ensures p == Allowed ==> editing == Some(v) && dialogOpen
      ensures p == ReadOnly ==> editing == old(editing) && dialogOpen == old(dialogOpen)
      ensures vehicles == old(vehicles) && filtered == old(filtered) && currentPage == old(currentPage)
      ensures search == old(search) && brandFilter == old(brandFilter) && statusFilter == old(statusFilter)
    {
      if !CanEdit(role) {
        return ReadOnly;
      }
      editing := Some(v);
      dialogOpen := true;
      p := Allowed;
    }

    /**
     * `handleStatusToggle`: refused unless the role may edit; otherwise the
     * stored status flips, the reload brings the change in, and the filter
     * step runs again over the reloaded list.
     */
    method StatusToggle(role: Option<Role>, v: Vehicle) returns (p: Permission)
      modifies this
      ensures p == Allowed <==> CanEdit(role)
      ensures p == ReadOnly ==> vehicles == old(vehicles) && filtered == old(filtered) && currentPage == old(currentPage)
      ensures p == Allowed ==>
        vehicles == SetStatus(old(vehicles), v.id, ToggledStatus(v.status))
        && filtered == FilteredVehicles(vehicles, search, brandFilter, statusFilter) && currentPage == 1
      ensures search == old(search) && brandFilter == old(brandFilter) && statusFilter == old(statusFilter)
      ensures dialogOpen == old(dialogOpen) && editing == old(editing)
    {
      if !CanEdit(role) {
        return ReadOnly;
      }
      vehicles := SetStatus(vehicles, v.id, ToggledStatus(v.status));
      ApplyFilters();
      p := Allowed;
    }
  }

  // Drivers

  /** The driver search: the name, the licence number or the phone holds the search term. */
  predicate DriverMatch(d: Driver, search: string)
  {
    Hit(d.name, search) || Hit(d.licenseNo, search) || Hit(d.phone, search)
  }

  function DriverHit(search: string): Driver -> bool
  {
    (d: Driver) => DriverMatch(d, search)
  }

  function DriverWithStatus(status: string): Driver -> bool
  {
    (d: Driver) => d.status == status
  }

  predicate DriverShown(d: Driver, search: string, statusFilter: string)
  {
    (search == "" || DriverMatch(d, search)) && (statusFilter == "all" || d.status == statusFilter)
  }

  function DriverCondition(search: string, statusFilter: string): Driver -> bool
  {
    (d: Driver) => DriverShown(d, search, statusFilter)
  }

  function FilteredDrivers(drivers: seq<Driver>, search: string, statusFilter: string): seq<Driver>
  {
    Filter(drivers, DriverCondition(search, statusFilter))
  }

  /** A driver is listed exactly when the search (if any) and the status filter (unless `all`) accept it, in order. */
  lemma FilteredDriversSpec(drivers: seq<Driver>, search: string, statusFilter: string, d: Driver)
    ensures d in FilteredDrivers(drivers, search, statusFilter) <==> d in drivers && DriverShown(d, search, statusFilter)
    ensures Subsequence(FilteredDrivers(drivers, search, statusFilter), drivers)
  {
    FilterMember(drivers, DriverCondition(search, statusFilter), d);
    FilterSubsequence(drivers, DriverCondition(search, statusFilter));
  }

  function VehicleWithId(id: string): Vehicle -> bool
  {
    (v: Vehicle) => v.id == id
  }

  /** `getVehiclePlate`: the head plate of the first vehicle with the id, or `-`. */
  function VehiclePlate(vehicles: seq<Vehicle>, vehicleId: string): string
  {
    var v := Find(vehicles, VehicleWithId(vehicleId));
    if v.Some? then v.value.headPlate else "-"
  }

  /** The plate is the first matching vehicle's, and `-` exactly when no vehicle has the id. */
  lemma VehiclePlateSpec(vehicles: seq<Vehicle>, vehicleId: string, i: int)
    requires 0 <= i < |vehicles| && vehicles[i].id == vehicleId
    requires forall k :: 0 <= k < i ==> vehicles[k].id != vehicleId
    ensures VehiclePlate(vehicles, vehicleId) == vehicles[i].headPlate
  {
    var v := Find(vehicles, VehicleWithId(vehicleId));
    var m :| 0 <= m < |vehicles| && vehicles[m] == v.value && VehicleWithId(vehicleId)(vehicles[m])
      && forall k :: 0 <= k < m ==> !VehicleWithId(vehicleId)(vehicles[k]);
    assert !(m < i) && !(i < m);
  }

  lemma NoVehicleDash(vehicles: seq<Vehicle>, vehicleId: string)
    requires forall k :: 0 <= k < |vehicles| ==> vehicles[k].id != vehicleId
    ensures VehiclePlate(vehicles, vehicleId) == "-"
  {
  }

  function DriverSearched(search: string): Driver -> bool
  {
    (d: Driver) => search == "" || DriverMatch(d, search)
  }

  /** The two filter steps of `filterDrivers`, each taken only when its filter is set, make up the one filter. */
  lemma DriverStages(drivers: seq<Driver>, search: string, statusFilter: string)
    ensures var f1 := if search != "" then Filter(drivers, DriverHit(search)) else drivers;
      (if statusFilter != "all" then Filter(f1, DriverWithStatus(statusFilter)) else f1)
      == FilteredDrivers(drivers, search, statusFilter)
  {
    var s1 := DriverSearched(search);
    forall x ensures s1(x) == (!(search != "") || DriverHit(search)(x)) { }
    FilterWhen(drivers, search != "", DriverHit(search), s1);
    var all := DriverCondition(search, statusFilter);
    forall x ensures all(x) == (s1(x) && (!(statusFilter != "all") || DriverWithStatus(statusFilter)(x))) { }
    FilterThenWhen(drivers, s1, statusFilter != "all", DriverWithStatus(statusFilter), all);
  }

  class DriversPage {
    var drivers: seq<Driver>
    var vehicles: seq<Vehicle>
    var filtered: seq<Driver>
    var search: string
    var statusFilter: string
    var currentPage: int

    constructor (drivers: seq<Driver>, vehicles: seq<Vehicle>)
      ensures this.drivers == drivers && this.vehicles == vehicles && filtered == drivers
      ensures search == "" && statusFilter == "all" && currentPage == 1
    {
      this.drivers := drivers;
      this.vehicles := vehicles;
      filtered := drivers;
      search := "";
      statusFilter := "all";
      currentPage := 1;
      FilterAll(drivers, DriverCondition("", "all"));
    }

    /** `filterDrivers`: the search, then the status, each only when set; back to page one. */
    method ApplyFilters()
      modifies this
      ensures filtered == FilteredDrivers(drivers, search, statusFilter) && currentPage == 1
      ensures drivers == old(drivers) && vehicles == old(vehicles)
      ensures search == old(search) && statusFilter == old(statusFilter)
    {
      var all, q, status := drivers, search, statusFilter;
      DriverStages(all, q, status);
      var f := all;
      if q != "" {
        f := Filter(f, DriverHit(q));
      }
      if status != "all" {
        f := Filter(f, DriverWithStatus(status));
      }
      filtered := f;
      currentPage := 1;
    }

    function PageRows(): seq<Driver>
      reads this
    {
      PageSlice(filtered, currentPage, RowsPerPage)
    }
  }

  // Customers

  /** The customer search: the name, the contact, the phone or the e-mail holds the search term. */
  predicate CustomerMatch(c: Customer, search: string)
  {
    Hit(c.name, search) || Hit(c.contactName, search) || Hit(c.phone, search) || Hit(c.email, search)
  }

  function CustomerHit(search: string): Customer -> bool
  {
    (c: Customer) => CustomerMatch(c, search)
  }

  function CustomerCondition(search: string): Customer -> bool
  {
    (c: Customer) => search == "" || CustomerMatch(c, search)
  }

  function FilteredCustomers(customers: seq<Customer>, search: string): seq<Customer>
  {
    Filter(customers, CustomerCondition(search))
  }

  /** A customer is listed exactly when there is no search or its name, contact, phone or e-mail holds it. */
  lemma FilteredCustomersSpec(customers: seq<Customer>, search: string, c: Customer)
    ensures c in FilteredCustomers(customers, search) <==>
      c in customers && (search == "" || CustomerMatch(c, search))
    ensures Subsequence(FilteredCustomers(customers, search), customers)
    ensures FilteredCustomers(customers, "") == customers
  {
    FilterMember(customers, CustomerCondition(search), c);
    FilterSubsequence(customers, CustomerCondition(search));
    FilterAll(customers, CustomerCondition(""));
  }

  class CustomersPage {
    var customers: seq<Customer>
    var filtered: seq<Customer>
    var search: string
    var currentPage: int

    constructor (customers: seq<Customer>)
      ensures this.customers == customers && filtered == customers && search == "" && currentPage == 1
    {
      this.customers := customers;
      filtered := customers;
      search := "";
      currentPage := 1;
    }

    /** `filterCustomers`. */
    method ApplyFilters()
      modifies this
      ensures filtered == FilteredCustomers(customers, search) && currentPage == 1
      ensures customers == old(customers) && search == old(search)
    {
      var f := customers;
      FilterWhen(customers, search != "", CustomerHit(search), CustomerCondition(search));
      if search != "" {
        f := Filter(f, CustomerHit(search));
      }
      filtered := f;
      currentPage := 1;
    }

    function PageRows(): seq<Customer>
      reads this
    {
      PageSlice(filtered, currentPage, RowsPerPage)
    }
  }

  // Rates

  /** The rate search: the origin, the destination or the vehicle type holds the search term. */
  predicate RateMatch(r: Rate, search: string)
  {
    Hit(r.routeFrom, search) || Hit(r.routeTo, search) || Hit(r.vehicleType, search)
  }

  function RateHit(search: string): Rate -> bool
  {
    (r: Rate) => RateMatch(r, search)
  }

  function RateCondition(search: string): Rate -> bool
  {
    (r: Rate) => search == "" || RateMatch(r, search)
  }

  function FilteredRates(rates: seq<Rate>, search: string): seq<Rate>
  {
    Filter(rates, RateCondition(search))
  }

  /** A rate is listed exactly when there is no search or its origin, destination or vehicle type holds it. */
  lemma FilteredRatesSpec(rates: seq<Rate>, search: string, r: Rate)
    ensures r in FilteredRates(rates, search) <==>
      r in rates && (search == "" || RateMatch(r, search))
    ensures Subsequence(FilteredRates(rates, search), rates)
    ensures FilteredRates(rates, "") == rates
  {
    FilterMember(rates, RateCondition(search), r);
    FilterSubsequence(rates, RateCondition(search));
    FilterAll(rates, RateCondition(""));
  }

  class RatesPage {
    var rates: seq<Rate>
    var filtered: seq<Rate>
    var search: string
    var currentPage: int

    constructor (rates: seq<Rate>)
      ensures this.rates == rates && filtered == rates && search == "" && currentPage == 1
    {
      this.rates := rates;
      filtered := rates;
      search := "";
      currentPage := 1;
    }

    /** `filterRates`. */
    method ApplyFilters()
      modifies this
      ensures filtered == FilteredRates(rates, search) && currentPage == 1
      ensures rates == old(rates) && search == old(search)
    {
      var f := rates;
      FilterWhen(rates, search != "", RateHit(search), RateCondition(search));
      if search != "" {
        f := Filter(f, RateHit(search));
      }
      filtered := f;
      currentPage := 1;
    }

    function PageRows(): seq<Rate>
      reads this
    {
      PageSlice(filtered, currentPage, RowsPerPage)
    }
  }

  // Parts

  /** The part search: the name, the category, the unit or the description holds the search term. */
  predicate PartMatch(p: Part, search: string)
  {
    Hit(p.partName, search) || Hit(p.category, search) || Hit(p.unit, search) || Hit(p.description, search)
  }

  function PartHit(search: string): Part -> bool
  {
    (p: Part) => PartMatch(p, search)
  }

  function PartCondition(search: string): Part -> bool
  {
    (p: Part) => search == "" || PartMatch(p, search)
  }

  function FilteredParts(parts: seq<Part>, search: string): seq<Part>
  {
    Filter(parts, PartCondition(search))
  }

  /** A part is listed exactly when there is no search or its name, category, unit or description holds it. */
  lemma FilteredPartsSpec(parts: seq<Part>, search: string, p: Part)
    ensures p in FilteredParts(parts, search) <==>
      p in parts && (search == "" || PartMatch(p, search))
    ensures Subsequence(FilteredParts(parts, search), parts)
    ensures FilteredParts(parts, "") == parts
  {
    FilterMember(parts, PartCondition(search), p);
    FilterSubsequence(parts, PartCondition(search));
    FilterAll(parts, PartCondition(""));
  }

  class PartsPage {
    var parts: seq<Part>
    var filtered: seq<Part>
    var search: string
    var currentPage: int

    constructor (parts: seq<Part>)
      ensures this.parts == parts && filtered == parts && search == "" && currentPage == 1
    {
      this.parts := parts;
      filtered := parts;
      search := "";
      currentPage := 1;
    }

    /** `filterParts`. */
    method ApplyFilters()
      modifies this
      ensures filtered == FilteredParts(parts, search) && currentPage == 1
      ensures parts == old(parts) && search == old(search)
    {
      var f := parts;
      FilterWhen(parts, search != "", PartHit(search), PartCondition(search));
      if search != "" {
        f := Filter(f, PartHit(search));
      }
      filtered := f;
      currentPage := 1;
    }

    function PageRows(): seq<Part>
      reads this
    {
      PageSlice(filtered, currentPage, RowsPerPage)
    }
  }

  /** After any filter run a tab shows the first at most twenty filtered rows. */
  lemma FirstPageAfterFilter<T>(filtered: seq<T>)
    ensures PageSlice(filtered, 1, RowsPerPage) == filtered[..Min(20, |filtered|)]
    ensures |PageSlice(filtered, 1, RowsPerPage)| <= 20
  {
    PageSliceIs(filtered, 1, RowsPerPage);
  }
}
