/**
 * The user management tab of UserManagementTab.tsx: the stored system
 * users, the confirmed activate/deactivate toggle, the invite and edit form,
 * and the search, role and status filters.
 */
module UsersTab {
  import opened Base
  import opened Text
  import opened Seqs
  import opened Domain

  /** A system user; `createdAt` and `lastLogin` are ISO date-time strings. */
  datatype User = User(
    id: string,
    name: string,
    email: string,
    role: Role,
    active: bool,
    createdAt: string,
    lastLogin: Option<string>)

  datatype UserForm = UserForm(name: string, email: string, role: Role)

  /** The form as `resetForm` leaves it: empty, with role `ops`. */
  function EmptyForm(): UserForm
  {
    UserForm("", "", Ops)
  }

  function FormOf(u: User): UserForm
  {
    UserForm(u.name, u.email, u.role)
  }

  /** `confirmToggleStatus`'s map: the user with the id changes its `active` flag. */
  function ToggleActive(users: seq<User>, id: string): seq<User>
  {
    Map(users, (u: User) => if u.id == id then u.(active := !u.active) else u)
  }

  /** Toggling flips only the `active` flag of the users with the id, and leaves every other user as it was. */
  lemma ToggleActiveSpec(users: seq<User>, id: string, i: int)
    requires 0 <= i < |users|
    ensures |ToggleActive(users, id)| == |users|
    ensures users[i].id == id ==> ToggleActive(users, id)[i] == users[i].(active := !users[i].active)
    ensures users[i].id != id ==> ToggleActive(users, id)[i] == users[i]
  {
  }

  /** Toggling twice gives the list back. */
  lemma ToggleTwice(users: seq<User>, id: string)
    ensures ToggleActive(ToggleActive(users, id), id) == users
  {
    var once := ToggleActive(users, id);
    var twice := ToggleActive(once, id);
    assert forall i :: 0 <= i < |users| ==> twice[i] == users[i];
  }

  datatype FormError = MissingField | InvalidEmail

  /** The checks of `handleSubmit`: both fields filled, then the e-mail pattern. */
  function Validate(f: UserForm): Option<FormError>
  {
    if f.name == "" || f.email == "" then Some(MissingField)
    else if !EmailLike(f.email) then Some(InvalidEmail)
    else None
  }

  /** A form is accepted exactly when the name is filled in and the e-mail has the pattern's shape. */
  lemma ValidateSpec(f: UserForm)
    ensures Validate(f) == None <==> f.name != "" && EmailLike(f.email)
  {
    if EmailLike(f.email) {
      var at, dot :| 0 <= at < |f.email| && 0 <= dot < |f.email| && EmailSplit(f.email, at, dot);
    }
  }

  /** The edit branch: the name, e-mail and role of the users with the id take the form's values. */
  function EditUsers(users: seq<User>, id: string, f: UserForm): seq<User>
  {
    Map(users, (u: User) => if u.id == id then u.(name := f.name, email := f.email, role := f.role) else u)
  }

  /**
   * Editing keeps length and order; an edited user keeps its id, `active`,
   * `createdAt` and `lastLogin`, and every other user is unchanged.
   */
  lemma EditUsersSpec(users: seq<User>, id: string, f: UserForm, i: int)
    requires 0 <= i < |users|
    ensures |EditUsers(users, id, f)| == |users|
    ensures users[i].id != id ==> EditUsers(users, id, f)[i] == users[i]
    ensures users[i].id == id ==>
      var u := EditUsers(users, id, f)[i];
      FormOf(u) == f && u.id == id && u.active == users[i].active
      && u.createdAt == users[i].createdAt && u.lastLogin == users[i].lastLogin
  {
  }

  /** An edit does not change whether a user is active, so it commutes with the toggle. */
  lemma EditCommutesWithToggle(users: seq<User>, id: string, other: string, f: UserForm)
    ensures EditUsers(ToggleActive(users, other), id, f) == ToggleActive(EditUsers(users, id, f), other)
  {
  }

  /** An invited user: active, never signed in. */
  function NewUser(id: string, f: UserForm, now: string): User
  {
    User(id, f.name, f.email, f.role, true, now, None)
  }

  /** A status filter is `all`, `active` or `inactive`; anything else lists no one. */
  predicate MatchesStatus(u: User, statusFilter: string)
  {
    statusFilter == "all" || (statusFilter == "active" && u.active) || (statusFilter == "inactive" && !u.active)
  }

  predicate MatchesRole(u: User, roleFilter: string)
  {
    roleFilter == "all" || RoleName(u.role) == roleFilter
  }

  predicate MatchesSearch(u: User, search: string)
  {
    Contains(Lower(u.name), Lower(search)) || Contains(Lower(u.email), Lower(search))
  }

  function Listed(search: string, roleFilter: string, statusFilter: string): User -> bool
  {
    (u: User) => MatchesSearch(u, search) && MatchesRole(u, roleFilter) && MatchesStatus(u, statusFilter)
  }

  /** `filteredUsers`. */
  function FilteredUsers(users: seq<User>, search: string, roleFilter: string, statusFilter: string): seq<User>
  {
    Filter(users, Listed(search, roleFilter, statusFilter))
  }

  /** A user is listed exactly when all three filters pass, in stored order. */
  lemma FilteredUsersSpec(users: seq<User>, search: string, roleFilter: string, statusFilter: string, u: User)
    ensures u in FilteredUsers(users, search, roleFilter, statusFilter) <==>
      u in users && MatchesSearch(u, search) && MatchesRole(u, roleFilter) && MatchesStatus(u, statusFilter)
    ensures Subsequence(FilteredUsers(users, search, roleFilter, statusFilter), users)
  {
    FilterMember(users, Listed(search, roleFilter, statusFilter), u);
    FilterSubsequence(users, Listed(search, roleFilter, statusFilter));
  }

  /** The `active` and `inactive` filters split the users the search and role filter keep. */
  lemma StatusFiltersPartition(users: seq<User>, search: string, roleFilter: string)
    ensures |FilteredUsers(users, search, roleFilter, "active")| + |FilteredUsers(users, search, roleFilter, "inactive")|
      == |FilteredUsers(users, search, roleFilter, "all")|
  {
    PartitionCounts(users, search, roleFilter);
  }

  lemma {:induction false} PartitionCounts(users: seq<User>, search: string, roleFilter: string)
    ensures |Filter(users, Listed(search, roleFilter, "active"))| + |Filter(users, Listed(search, roleFilter, "inactive"))|
      == |Filter(users, Listed(search, roleFilter, "all"))|
  {
    if users != [] {
      PartitionCounts(users[1..], search, roleFilter);
      assert users == [users[0]] + users[1..];
      FilterAppend([users[0]], users[1..], Listed(search, roleFilter, "active"));
      FilterAppend([users[0]], users[1..], Listed(search, roleFilter, "inactive"));
      FilterAppend([users[0]], users[1..], Listed(search, roleFilter, "all"));
    }
  }

  datatype SubmitOutcome = Rejected(error: FormError) | Invited | Edited

  /** The tab's state: the stored users, the dialogs, and the form. */
  class UsersPage {
    var users: seq<User>
    var editing: Option<User>
    var userToToggle: Option<User>
    var form: UserForm
    var dialogOpen: bool
    var statusDialogOpen: bool

    constructor (users: seq<User>)
      ensures this.users == users && editing == None && userToToggle == None
      ensures form == EmptyForm() && !dialogOpen && !statusDialogOpen
    {
      this.users := users;
      editing := None;
      userToToggle := None;
      form := EmptyForm();
      dialogOpen := false;
      statusDialogOpen := false;
    }

    /** `handleEdit`. */
    method Edit(u: User)
      modifies this
      ensures editing == Some(u) && form == FormOf(u) && dialogOpen
      ensures users == old(users) && userToToggle == old(userToToggle) && statusDialogOpen == old(statusDialogOpen)
    {
      editing := Some(u);
      form := FormOf(u);
      dialogOpen := true;
    }

    /** `handleToggleStatus`: remembers the user and asks for confirmation. */
    method AskToggle(u: User)
      modifies this
      ensures userToToggle == Some(u) && statusDialogOpen
      ensures users == old(users) && editing == old(editing) && form == old(form) && dialogOpen == old(dialogOpen)
    {
      userToToggle := Some(u);
      statusDialogOpen := true;
    }

    /** `confirmToggleStatus`: flips the pending user's flag, by id, and closes the dialog. */
    method ConfirmToggle()
      modifies this
      ensures old(userToToggle).Some? ==>
        users == ToggleActive(old(users), old(userToToggle).value.id) && userToToggle == None && !statusDialogOpen
      ensures old(userToToggle).None? ==>
        users == old(users) && userToToggle == None && statusDialogOpen == old(statusDialogOpen)
      ensures editing == old(editing) && form == old(form) && dialogOpen == old(dialogOpen)
    {
      if userToToggle.Some? {
        users := ToggleActive(users, userToToggle.value.id);
        statusDialogOpen := false;
        userToToggle := None;
      }
    }

    /**
     * `handleSubmit`: a rejected form leaves everything as it was; an
     * accepted one edits the user being edited or appends an active new
     * user, then closes and resets the form.
     */
    method Submit(newId: string, now: string) returns (outcome: SubmitOutcome)
      modifies this
      ensures Validate(old(form)).Some? ==>
        outcome == Rejected(Validate(old(form)).value) && users == old(users)
        && form == old(form) && editing == old(editing) && dialogOpen == old(dialogOpen)
      ensures Validate(old(form)) == None && old(editing).Some? ==>
        outcome == Edited && users == EditUsers(old(users), old(editing).value.id, old(form))
      ensures Validate(old(form)) == None && old(editing).None? ==>
        outcome == Invited && users == old(users) + [NewUser(newId, old(form), now)]
      ensures Validate(old(form)) == None ==> !dialogOpen && form == EmptyForm() && editing == None
      ensures userToToggle == old(userToToggle) && statusDialogOpen == old(statusDialogOpen)
    {
      var err := Validate(form);
      if err.Some? {
        return Rejected(err.value);
      }
      if editing.Some? {
        users := EditUsers(users, editing.value.id, form);
        outcome := Edited;
      } else {
        users := users + [NewUser(newId, form, now)];
        outcome := Invited;
      }
      dialogOpen := false;
      form := EmptyForm();
      editing := None;
    }
  }
}
