/**
 * The routes tab of RoutesTab.tsx: the list of routes kept in the key-value
 * store, the form that adds or edits one, the confirmed delete, and the
 * search and status filter over the list.
 */
module RoutesTab {
  import opened Base
  import opened Text
  import opened Seqs
  import opened Domain

  /**
   * The route form. `distance` and `estimatedDuration` hold what
   * `parseFloat` reads from the two text fields, `None` when it reads NaN.
   */
  datatype RouteForm = RouteForm(
    routeName: string,
    origin: string,
    destination: string,
    distance: Option<int>,
    estimatedDuration: Option<int>,
    notes: string,
    status: string)

  /** The form as `resetForm` leaves it: empty texts (NaN numbers) and status `active`. */
  function EmptyForm(): RouteForm
  {
    RouteForm("", "", "", None, None, "", "active")
  }

  /** The form `handleEdit` fills from a route. */
  function FormOf(r: Route): RouteForm
  {
    RouteForm(r.routeName, r.origin, r.destination, Some(r.distance), Some(r.estimatedDuration), r.notes, r.status)
  }

  datatype FormError = MissingField | BadDistance | BadDuration

  /** The checks of `handleSubmit`, in order: the three names, then the distance, then the duration. */
  function Validate(f: RouteForm): Option<FormError>
  {
    if f.routeName == "" || f.origin == "" || f.destination == "" then Some(MissingField)
    else if f.distance.None? || f.distance.value <= 0 then Some(BadDistance)
    else if f.estimatedDuration.None? || f.estimatedDuration.value <= 0 then Some(BadDuration)
    else None
  }

  /** A form is accepted exactly when the three names are filled in and both numbers are positive. */
  lemma ValidateSpec(f: RouteForm)
    ensures Validate(f) == None <==>
      f.routeName != "" && f.origin != "" && f.destination != ""
      && f.distance.Some? && f.distance.value > 0
      && f.estimatedDuration.Some? && f.estimatedDuration.value > 0
    ensures Validate(f) == Some(MissingField) <==> f.routeName == "" || f.origin == "" || f.destination == ""
  {
  }

  /** The form of a stored route with positive numbers and filled names passes the checks again. */
  lemma EditFormOfValidRoute(r: Route)
    requires r.routeName != "" && r.origin != "" && r.destination != ""
    requires r.distance > 0 && r.estimatedDuration > 0
    ensures Validate(FormOf(r)) == None
  {
  }

  /** `{ ...r, ...form fields, updatedAt }`: a validated form's values over an existing route. */
  function Updated(r: Route, f: RouteForm, now: string): Route
    requires Validate(f) == None
  {
    r.(routeName := f.routeName, origin := f.origin, destination := f.destination,
       distance := f.distance.value, estimatedDuration := f.estimatedDuration.value,
       notes := f.notes, status := f.status, updatedAt := Some(now))
  }

  /** The new route of `handleSubmit`, with no `updatedAt`. */
  function NewRoute(id: string, f: RouteForm, now: string): Route
    requires Validate(f) == None
  {
    Route(id, f.routeName, f.origin, f.destination, f.distance.value, f.estimatedDuration.value,
          f.notes, f.status, now, None)
  }

  /** A new route carries the form's values, the given id and creation time, and no update time. */
  lemma NewRouteSpec(id: string, f: RouteForm, now: string)
    requires Validate(f) == None
    ensures var r := NewRoute(id, f, now);
      FormOf(r) == f && r.id == id && r.createdAt == now && r.updatedAt == None
  {
  }

  /** The edit branch: every route with the edited id takes the form's values. */
  function EditRoutes(routes: seq<Route>, id: string, f: RouteForm, now: string): seq<Route>
    requires Validate(f) == None
  {
    Map(routes, (r: Route) => if r.id == id then Updated(r, f, now) else r)
  }

  /**
   * Editing keeps the length and order of the list; the routes with the
   * edited id take the form's fields and `updatedAt` and keep their id and
   * `createdAt`; every other route is unchanged.
   */
  lemma EditRoutesSpec(routes: seq<Route>, id: string, f: RouteForm, now: string, i: int)
    requires Validate(f) == None && 0 <= i < |routes|
    ensures |EditRoutes(routes, id, f, now)| == |routes|
    ensures routes[i].id != id ==> EditRoutes(routes, id, f, now)[i] == routes[i]
    ensures routes[i].id == id ==>
      var r := EditRoutes(routes, id, f, now)[i];
      r.id == id && r.createdAt == routes[i].createdAt && r.updatedAt == Some(now)
      && FormOf(r) == f
  {
  }

  /** Saving the same form twice is the same as saving it once. */
  lemma EditRoutesIdempotent(routes: seq<Route>, id: string, f: RouteForm, now: string)
    requires Validate(f) == None
    ensures EditRoutes(EditRoutes(routes, id, f, now), id, f, now) == EditRoutes(routes, id, f, now)
  {
    var once := EditRoutes(routes, id, f, now);
    assert forall i :: 0 <= i < |once| ==> once[i].id == routes[i].id;
  }

  function Other(id: string): Route -> bool
  {
    (r: Route) => r.id != id
  }

  /** `confirmDelete`'s filter. */
  function DeleteRoutes(routes: seq<Route>, id: string): seq<Route>
  {
    Filter(routes, Other(id))
  }

  /** Deleting keeps exactly the routes with another id, in order. */
  lemma DeleteRoutesSpec(routes: seq<Route>, id: string, r: Route)
    ensures r in DeleteRoutes(routes, id) <==> r in routes && r.id != id
    ensures Subsequence(DeleteRoutes(routes, id), routes)
  {
    FilterMember(routes, Other(id), r);
    FilterSubsequence(routes, Other(id));
  }

  /** Deleting the id of a freshly added route takes the list back to what deleting it before would give. */
  lemma DeleteUndoesAdd(routes: seq<Route>, f: RouteForm, newId: string, now: string)
    requires Validate(f) == None
    ensures DeleteRoutes(routes + [NewRoute(newId, f, now)], newId) == DeleteRoutes(routes, newId)
    ensures (forall i :: 0 <= i < |routes| ==> routes[i].id != newId) ==> DeleteRoutes(routes, newId) == routes
  {
    FilterAppend(routes, [NewRoute(newId, f, now)], Other(newId));
    assert Filter([NewRoute(newId, f, now)], Other(newId)) == [];
    if forall i :: 0 <= i < |routes| ==> routes[i].id != newId {
      FilterAll(routes, Other(newId));
    }
  }

  /** The search box: the name, origin or destination contains the search term, ignoring case. */
  predicate MatchesSearch(r: Route, search: string)
  {
    Contains(Lower(r.routeName), Lower(search)) || Contains(Lower(r.origin), Lower(search))
    || Contains(Lower(r.destination), Lower(search))
  }

  function Listed(search: string, statusFilter: string): Route -> bool
  {
    (r: Route) => MatchesSearch(r, search) && (statusFilter == "all" || r.status == statusFilter)
  }

  /** `filteredRoutes`. */
  function FilteredRoutes(routes: seq<Route>, search: string, statusFilter: string): seq<Route>
  {
    Filter(routes, Listed(search, statusFilter))
  }

  /** A route is listed exactly when it matches the search and the status filter, in stored order. */
  lemma FilteredRoutesSpec(routes: seq<Route>, search: string, statusFilter: string, r: Route)
    ensures r in FilteredRoutes(routes, search, statusFilter) <==>
      r in routes && MatchesSearch(r, search) && (statusFilter == "all" || r.status == statusFilter)
    ensures Subsequence(FilteredRoutes(routes, search, statusFilter), routes)
  {
    FilterMember(routes, Listed(search, statusFilter), r);
    FilterSubsequence(routes, Listed(search, statusFilter));
  }

  /** With an empty search and the status filter on `all`, every route is listed. */
  lemma NoFilterListsAll(routes: seq<Route>)
    ensures FilteredRoutes(routes, "", "all") == routes
  {
    forall i | 0 <= i < |routes| ensures Listed("", "all")(routes[i]) {
      ContainsEmpty(Lower(routes[i].routeName));
    }
    FilterAll(routes, Listed("", "all"));
  }

  datatype SubmitOutcome = Rejected(error: FormError) | Saved

  /** The tab's state: the stored routes, the dialogs, and the form. */
  class RoutesPage {
    var routes: seq<Route>
    var editing: Option<Route>
    var routeToDelete: Option<string>
    var form: RouteForm
    var dialogOpen: bool
    var deleteDialogOpen: bool

    constructor (routes: seq<Route>)
      ensures this.routes == routes && editing == None && routeToDelete == None
      ensures form == EmptyForm() && !dialogOpen && !deleteDialogOpen
    {
      this.routes := routes;
      editing := None;
      routeToDelete := None;
      form := EmptyForm();
      dialogOpen := false;
      deleteDialogOpen := false;
    }

    /** `handleEdit`. */
    method Edit(r: Route)
      modifies this
      ensures editing == Some(r) && form == FormOf(r) && dialogOpen
      ensures routes == old(routes) && routeToDelete == old(routeToDelete)
      ensures deleteDialogOpen == old(deleteDialogOpen)
    {
      editing := Some(r);
      form := FormOf(r);
      dialogOpen := true;
    }

    /** `handleDelete`: remembers the id and asks for confirmation. */
    method AskDelete(id: string)
      modifies this
      ensures routeToDelete == Some(id) && deleteDialogOpen
      ensures routes == old(routes) && editing == old(editing) && form == old(form)
      ensures dialogOpen == old(dialogOpen)
    {
      routeToDelete := Some(id);
      deleteDialogOpen := true;
    }

    /** `confirmDelete`: does nothing unless a (non-empty) id is pending. */
    method ConfirmDelete()
      modifies this
      ensures old(routeToDelete).Some? && old(routeToDelete).value != "" ==>
        routes == DeleteRoutes(old(routes), old(routeToDelete).value)
        && routeToDelete == None && !deleteDialogOpen
      ensures !(old(routeToDelete).Some? && old(routeToDelete).value != "") ==>
        routes == old(routes) && routeToDelete == old(routeToDelete) && deleteDialogOpen == old(deleteDialogOpen)
      ensures editing == old(editing) && form == old(form) && dialogOpen == old(dialogOpen)
    {
      if routeToDelete.Some? && routeToDelete.value != "" {
        routes := DeleteRoutes(routes, routeToDelete.value);
        deleteDialogOpen := false;
        routeToDelete := None;
      }
    }

    /**
     * `handleSubmit`: a rejected form leaves everything as it was; an
     * accepted one edits the route being edited or appends a new one, then
     * closes and resets the form.
     */
    method Submit(newId: string, now: string) returns (outcome: SubmitOutcome)
      modifies this
      ensures Validate(old(form)).Some? ==>
        outcome == Rejected(Validate(old(form)).value) && routes == old(routes)
        && form == old(form) && editing == old(editing) && dialogOpen == old(dialogOpen)
      ensures Validate(old(form)) == None ==>
        outcome == Saved && !dialogOpen && form == EmptyForm() && editing == None
        && routes == (if old(editing).Some? then EditRoutes(old(routes), old(editing).value.id, old(form), now)
                      else old(routes) + [NewRoute(newId, old(form), now)])
      ensures routeToDelete == old(routeToDelete) && deleteDialogOpen == old(deleteDialogOpen)
    {
      var err := Validate(form);
      if err.Some? {
        return Rejected(err.value);
      }
      if editing.Some? {
        routes := EditRoutes(routes, editing.value.id, form, now);
      } else {
        routes := routes + [NewRoute(newId, form, now)];
      }
      dialogOpen := false;
      form := EmptyForm();
      editing := None;
      outcome := Saved;
    }
  }
}
