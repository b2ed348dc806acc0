/**
 * User administration: the Director-only load, the create modal, and
 * deletion, over the page's `users`, `loading`, `error`, modal flag and form.
 */
module UsersPage {
  import opened Wrappers
  import opened Roles
  import opened Api
  import Text

  /** A row of `GET /users`. */
  datatype UserRow = UserRow(id: string, name: string, email: string, role: string,
                             createdAt: string, lastLogin: Option<string>)

  datatype UserForm = UserForm(name: string, email: string, password: string, role: string)

  datatype FormField = NameField | EmailField | PasswordField | RoleField

  const EmptyForm: UserForm := UserForm("", "", "", "")

  const DeniedMarker: string := "Acesso não autorizado"
  const DeniedMessage: string := DeniedMarker + ". Apenas o Diretor da Divisão pode acessar este módulo."
  // Written in three pieces so that the verifier can read it character by character.
  const LoadFailedMessage: string := "Não foi possível " + "carregar os usuários. " + "Tente novamente mais tarde."

  /** The values offered by the role select of the create form. */
  const RoleOptions: seq<string> := [DirectorRole, AuditorRole, AuditedRole]

  /** The options are exactly the three known roles, each once. */
  lemma RoleOptionsAreTheKnownRoles()
    ensures forall s :: s in RoleOptions <==> IsKnownRoleName(s)
    ensures |RoleOptions| == 3 && RoleOptions[0] != RoleOptions[1] && RoleOptions[0] != RoleOptions[2]
            && RoleOptions[1] != RoleOptions[2]
    ensures Classify(Some(RoleOptions[0])) == Director && Classify(Some(RoleOptions[1])) == Auditor
            && Classify(Some(RoleOptions[2])) == Audited
  {
    RoleNamesDistinct();
  }

  /** `users.filter(user => user.id !== userId)`. */
  function WithoutUser(users: seq<UserRow>, id: string): (r: seq<UserRow>)
    ensures forall u :: u in r <==> u in users && u.id != id
    ensures |r| <= |users|
  {
    if users == [] then []
    else (if users[0].id != id then [users[0]] else []) + WithoutUser(users[1..], id)
  }

  /** Deleting keeps the remaining rows in their order: the filter distributes over concatenation. */
  lemma {:induction false} WithoutUserKeepsOrder(a: seq<UserRow>, b: seq<UserRow>, id: string)
    ensures WithoutUser(a + b, id) == WithoutUser(a, id) + WithoutUser(b, id)
  {
    if a == [] {
      assert a + b == b;
    } else {
      assert (a + b)[0] == a[0];
      assert (a + b)[1..] == a[1..] + b;
      WithoutUserKeepsOrder(a[1..], b, id);
    }
  }

  /** Deleting an id no row carries changes nothing. */
  lemma {:induction false} WithoutAbsentUser(users: seq<UserRow>, id: string)
    requires forall i :: 0 <= i < |users| ==> users[i].id != id
    ensures WithoutUser(users, id) == users
  {
    if users != [] {
      WithoutAbsentUser(users[1..], id);
    }
  }

  /** The delete button is disabled exactly on the signed-in user's own row. */
  function DeleteDisabled(row: UserRow, current: Option<User>): (disabled: bool)
    ensures disabled <==> current.Some? && current.value.id == row.id
  {
    current.Some? && row.id == current.value.id
  }

  /** The retry button is offered unless the error is the access denial. */
  function ShowsRetry(error: string): (retry: bool)
    ensures retry <==> !Text.Occurs(error, DeniedMarker)
  {
    !Text.Includes(error, DeniedMarker)
  }

  /** The denial offers no retry; a failed load does. */
  lemma RetryOnlyForLoadFailure()
    ensures !ShowsRetry(DeniedMessage)
    ensures ShowsRetry(LoadFailedMessage)
  {
    assert Text.StartsWith(DeniedMessage, DeniedMarker);
    var a, b, c := "Não foi possível ", "carregar os usuários. ", "Tente novamente mais tarde.";
    assert forall i :: 0 <= i < |a| ==> a[i] != 'A';
    assert forall i :: 0 <= i < |b| ==> b[i] != 'A';
    assert forall i :: 0 <= i < |c| ==> c[i] != 'A';
    assert LoadFailedMessage == a + b + c;
    Text.NotIncludesWithoutFirstChar(LoadFailedMessage, DeniedMarker);
  }

  /** What the page shows, in the order its render checks: loading, then error, then the table. */
  datatype Screen = LoadingScreen | ErrorScreen(message: string, retry: bool) | TableScreen(rows: seq<UserRow>, modalOpen: bool)

  class UsersPageState {
    var users: seq<UserRow>
    var loading: bool
    var error: string
    var showCreateModal: bool
    var form: UserForm

    constructor ()
      ensures users == [] && loading && error == "" && !showCreateModal && form == EmptyForm
    {
      users, loading, error, showCreateModal, form := [], true, "", false, EmptyForm;
    }

    function View(): (s: Screen)
      reads this
      ensures s == LoadingScreen <==> loading
      ensures !loading && error != "" ==> s == ErrorScreen(error, ShowsRetry(error))
      ensures !loading && error == "" ==> s == TableScreen(users, showCreateModal)
    {
      if loading then LoadingScreen
      else if error != "" then ErrorScreen(error, ShowsRetry(error))
      else TableScreen(users, showCreateModal)
    }

    /**
     * The mount effect. Only the Director fetches; a missing `users` field
     * reads as `[]` and a failure sets the load message. Any other role gets
     * the denial message and no request; `loading` is left as it was.
     */
    method LoadEffect(current: Option<User>, fetched: Result<Option<seq<UserRow>>, HttpError>)
      returns (requested: bool)
      modifies this
      ensures requested <==> RoleOf(current) == Director
      ensures requested && fetched.Success? ==>
        !loading && error == old(error) && users == (if fetched.value.Some? then fetched.value.value else [])
      ensures requested && fetched.Failure? ==> !loading && error == LoadFailedMessage && users == old(users)
      ensures !requested ==> error == DeniedMessage && loading == old(loading) && users == old(users)
      ensures showCreateModal == old(showCreateModal) && form == old(form)
    {
      requested := current.Some? && current.value.role == DirectorRole;
      if requested {
        loading := true;
        if fetched.Success? {
          users := if fetched.value.Some? then fetched.value.value else [];
        } else {
          error := LoadFailedMessage;
        }
        loading := false;
      } else {
        error := DeniedMessage;
      }
    }

    method OpenCreateModal()
      modifies this
      ensures showCreateModal
      ensures users == old(users) && loading == old(loading) && error == old(error) && form == old(form)
    {
      showCreateModal := true;
    }

    /** `handleCloseModal`: hide the modal and reset every field to "". */
    method CloseModal()
      modifies this
      ensures !showCreateModal && form == EmptyForm
      ensures users == old(users) && loading == old(loading) && error == old(error)
    {
      showCreateModal := false;
      form := EmptyForm;
    }

    /** `handleInputChange`: one field replaced, the others kept. */
    method ChangeField(field: FormField, value: string)
      modifies this
      ensures form == match field
        case NameField => old(form).(name := value)
        case EmailField => old(form).(email := value)
        case PasswordField => old(form).(password := value)
        case RoleField => old(form).(role := value)
      ensures users == old(users) && loading == old(loading) && error == old(error)
      ensures showCreateModal == old(showCreateModal)
    {
      match field
      case NameField => form := form.(name := value);
      case EmailField => form := form.(email := value);
      case PasswordField => form := form.(password := value);
      case RoleField => form := form.(role := value);
    }

    /**
     * `handleSubmit`: the created user is put in front of the list and the
     * modal closes; on failure (an alert) nothing changes.
     */
    method SubmitCreate(created: Result<UserRow, HttpError>)
      modifies this
      ensures created.Success? ==> users == [created.value] + old(users) && !showCreateModal && form == EmptyForm
      ensures created.Failure? ==> users == old(users) && showCreateModal == old(showCreateModal) && form == old(form)
      ensures loading == old(loading) && error == old(error)
    {
      if created.Success? {
        users := [created.value] + users;
        CloseModal();
      }
    }

    /**
     * `handleDeleteUser`: after confirmation, the request; on success every
     * row with that id goes and the rest keep their order.
     */
    method DeleteUser(id: string, confirmed: bool, outcome: Result<(), HttpError>) returns (requested: bool)
      modifies this
      ensures requested == confirmed
      ensures confirmed && outcome.Success? ==> users == WithoutUser(old(users), id)
      ensures !(confirmed && outcome.Success?) ==> users == old(users)
      ensures forall u :: u in users ==> u in old(users)
      ensures loading == old(loading) && error == old(error)
      ensures showCreateModal == old(showCreateModal) && form == old(form)
    {
      requested := confirmed;
      if confirmed && outcome.Success? {
        users := WithoutUser(users, id);
      }
    }
  }

  /**
   * As written, a signed-in user who is not the Director never sees the
   * denial: `loading` starts true and only the Director's fetch clears it,
   * so the page stays on the loading screen. (The route table already keeps
   * every other role away from `/users`.)
   */
  method NonDirectorStaysLoading(current: Option<User>) returns (page: UsersPageState)
    requires RoleOf(current) != Director
    ensures page.error == DeniedMessage
    ensures page.View() == LoadingScreen
  {
    page := new UsersPageState();
    var _ := page.LoadEffect(current, Success(None));
  }
}
