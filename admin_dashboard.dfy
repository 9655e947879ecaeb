/**
 * The admin dashboard: the access check, the per-row actions, the set-payout
 * modal, the helper-registration switch and the role editor.
 */
module AdminDashboard {
  import opened Wrappers
  import opened Domain
  import Browser
  import Seqs
  import App

  // ---------------------------------------------------------------------------
  // Access

  /**
   * The mount effect: a stored user that is an admin is kept; no stored user,
   * or one without `isAdmin`, is sent to the login page. The stored text is
   * parsed outside any `try`, so a parse failure aborts the effect.
   */
  function AdminAccess(items: map<string, string>, parse: string -> Option<UserData>): (r: Access)
    ensures !Truthy(Browser.Get(items, Browser.UserDataKey)) ==> r == Redirect(App.LoginPath)
    ensures r.ParseThrows? <==>
      Truthy(Browser.Get(items, Browser.UserDataKey)) && parse(items[Browser.UserDataKey]).None?
    ensures r.Granted? ==>
      Browser.UserDataKey in items && parse(items[Browser.UserDataKey]) == Some(r.user) && r.user.isAdmin
    ensures r.Redirect? ==> r.path == App.LoginPath
  {
    var stored := Browser.Get(items, Browser.UserDataKey);
    if !Truthy(stored) then Redirect(App.LoginPath)
    else
      match parse(stored.value)
      case None => ParseThrows
      case Some(user) => if !user.isAdmin then Redirect(App.LoginPath) else Granted(user)
  }

  /** Whenever the dashboard keeps its visitor, that visitor can see it in the router too. */
  lemma AdminAccessAgreesWithRouter(items: map<string, string>, parse: string -> Option<UserData>, s: App.Session)
    requires AdminAccess(items, parse).Granted?
    requires s.isLoggedIn && s.user == Some(AdminAccess(items, parse).user)
    ensures App.Show(App.AdminDashboardPath, s) == App.Layout(App.AdminDashboardPage)
  {
  }

  // ---------------------------------------------------------------------------
  // Per-row actions

  /** The buttons in an assignment row's action cell. */
  datatype RowAction =
    | SetPayoutButton
    /** "Process Payout" navigates to the pay-helper page of the row's assignment. */
    | ProcessPayoutButton(target: string)

  /** Set Payout for a pending assignment, Process Payout for one ready for payout, nothing otherwise. */
  function AssignmentActions(a: Assignment): (r: seq<RowAction>)
    ensures SetPayoutButton in r <==> a.status == Pending
    ensures ProcessPayoutButton(App.PayHelperPrefix + a.id) in r <==> a.status == ReadyForPayout
    ensures forall act :: act in r ==> act == SetPayoutButton || act == ProcessPayoutButton(App.PayHelperPrefix + a.id)
    ensures |r| <= 1
  {
    if a.status == Pending then [SetPayoutButton]
    else if a.status == ReadyForPayout then [ProcessPayoutButton(App.PayHelperPrefix + a.id)]
    else []
  }

  /** "Process Payout" on a row whose id is one path segment opens the pay-helper route for that id. */
  lemma {:induction false} ProcessPayoutOpensPayHelper(a: Assignment)
    requires a.status == ReadyForPayout && App.IsSegment(a.id)
    ensures AssignmentActions(a) == [ProcessPayoutButton(App.PayHelperPrefix + a.id)]
    ensures App.Match(App.PayHelperPrefix + a.id) == App.RouteMatch(App.PayHelperRoute, map["assignmentId" := a.id])
  {
    var path := App.PayHelperPrefix + a.id;
    assert path[..|App.PayHelperPrefix|] == App.PayHelperPrefix;
    assert path[|App.PayHelperPrefix|..] == a.id;
    assert path[1] == 'a' && path[2] == 'd';
    assert !App.HasPrefix(path, App.AcceptPrefix) by {
      assert path[2] != App.AcceptPrefix[2];
    }
    assert !App.HasPrefix(path, App.ReviewPrefix) by {
      assert path[1] != App.ReviewPrefix[1];
    }
    assert path != App.LoginPath && path != "/local-login" && path != "/register-helper" by {
      assert path[1] != App.LoginPath[1];
      assert path[1] != "/local-login"[1];
      assert path[1] != "/register-helper"[1];
    }
  }

  /** The Delete button of a user row (`userData?._id !== user._id`). */
  predicate DeleteOffered(me: Option<UserData>, row: UserData)
  {
    me.None? || me.value.id != row.id
  }

  /** The logged-in admin never gets a Delete button on their own row, and gets one on every other. */
  lemma NoSelfDelete(me: UserData, row: UserData)
    ensures !DeleteOffered(Some(me), me)
    ensures DeleteOffered(Some(me), row) <==> row.id != me.id
  {
  }

  // ---------------------------------------------------------------------------
  // Set payout

  /** The payout input: `''` or a number. */
  datatype PayoutField = Blank | Amount(value: real)

  /** `handleSetPayoutClick`'s prefill: the current payout, or `''` when it is null or undefined. */
  function PrefillPayout(current: Option<real>): (r: PayoutField)
    ensures r.Blank? <==> current.None?
    ensures r.Amount? ==> r.value == current.value
  {
    match current
    case None => Blank
    case Some(v) => Amount(v)
  }

  /** The body of `PUT /admin/assignments/:id/set-payout`. */
  datatype PayoutRequest = PayoutRequest(assignmentId: string, helperPayoutAmount: real)

  const PayoutRequired: string := "Assignment ID and payout amount are required."
  const PayoutSet: string := "Payout amount set successfully!"

  /** The guard at the top of `handleSetPayout`: both an assignment and an amount are needed. */
  function SetPayoutCheck(selected: Option<string>, amount: PayoutField): (r: Result<PayoutRequest>)
    ensures r.Failure? <==> !Truthy(selected) || amount.Blank?
    ensures r.Failure? ==> r.error == PayoutRequired
    ensures r.Success? ==> r.value == PayoutRequest(selected.value, amount.value)
  {
    if !Truthy(selected) || amount.Blank? then Failure(PayoutRequired)
    else Success(PayoutRequest(selected.value, amount.value))
  }

  /** The modal's submit button is disabled while submitting, for a blank amount, or for one at most zero. */
  predicate PayoutSubmitDisabled(isSubmitting: bool, amount: PayoutField)
  {
    isSubmitting || amount.Blank? || amount.value <= 0.0
  }

  /**
   * The modal only renders with an assignment selected, so an enabled button
   * always passes the guard and sends a positive amount.
   */
  lemma EnabledPayoutSubmitPasses(selected: Option<string>, isSubmitting: bool, amount: PayoutField)
    requires Truthy(selected) && !PayoutSubmitDisabled(isSubmitting, amount)
    ensures SetPayoutCheck(selected, amount).Success?
    ensures SetPayoutCheck(selected, amount).value.helperPayoutAmount > 0.0
    ensures SetPayoutCheck(selected, amount).value.assignmentId == selected.value
  {
  }

  /** The reply to the set-payout request: an HTTP answer with its status, or a request that never got one. */
  datatype PayoutReply =
    | PayoutResponded(status: int, message: Option<string>)
    | PayoutRequestFailed(message: Option<string>)

  // ---------------------------------------------------------------------------
  // Helper-registration switch

  /** The reply to `PUT /admin/settings/toggle-helper-registration`. */
  datatype ToggleReply =
    | Toggled(isOpen: bool, message: Option<string>)
    | ToggleFailed(message: Option<string>)

  // ---------------------------------------------------------------------------
  // Role editor

  /** Keeps every role other than `role`. */
  function Other(role: string): string -> bool
  {
    (x: string) => x != role
  }

  /**
   * `handleRoleChange`'s update: a role the list holds is removed, every copy of
   * it; a role the list lacks is appended at the end.
   */
  function ToggleRole(roles: seq<string>, role: string): (r: seq<string>)
    ensures role in r <==> role !in roles
    ensures forall x :: x != role ==> (x in r <==> x in roles)
    ensures role !in roles ==> r == roles + [role]
  {
    if role in roles then Seqs.Filter(roles, Other(role)) else roles + [role]
  }

  /** Every other role keeps its number of occurrences, and a present role loses all of them. */
  lemma ToggleKeepsOthers(roles: seq<string>, role: string, x: string)
    ensures x != role ==> multiset(ToggleRole(roles, role))[x] == multiset(roles)[x]
    ensures role in roles ==> multiset(ToggleRole(roles, role))[role] == 0
  {
    if role in roles {
      Seqs.FilterCount(roles, Other(role), x);
    }
  }

  /** Removing a role held once leaves the other roles in their order. */
  lemma RemoveSingleCopy(before: seq<string>, role: string, after: seq<string>)
    requires role !in before && role !in after
    ensures ToggleRole(before + [role] + after, role) == before + after
  {
    var keep := Other(role);
    assert forall x :: x in before ==> keep(x);
    assert forall x :: x in after ==> keep(x);
    Seqs.DropsOne(before, role, after, keep);
  }

  /** Checking and then unchecking a role the user lacks restores the list. */
  lemma ToggleTwiceRestores(roles: seq<string>, role: string)
    requires role !in roles
    ensures ToggleRole(ToggleRole(roles, role), role) == roles
  {
    RemoveSingleCopy(roles, role, []);
    assert roles + [role] + [] == roles + [role];
    assert roles + [] == roles;
  }

  // ---------------------------------------------------------------------------
  // The page state

  class AdminDashboardPage {
    var userData: Option<UserData>
    var selectedAssignmentId: Option<string>
    var payoutAmount: PayoutField
    var payoutMessage: Option<string>
    var payoutError: Option<string>
    var isPayoutSubmitting: bool
    var helperRegistrationOpen: bool
    var registrationStatusError: Option<string>
    var togglingRegistration: bool
    var showEditUserModal: bool
    var editingUser: Option<UserData>
    var selectedRoles: seq<string>
    var isUserActive: bool
    var editUserMessage: Option<string>
    var editUserError: Option<string>

    constructor ()
      ensures userData.None? && selectedAssignmentId.None? && payoutAmount == Blank
      ensures payoutMessage.None? && payoutError.None? && !isPayoutSubmitting
      ensures !helperRegistrationOpen && registrationStatusError.None? && !togglingRegistration
      ensures !showEditUserModal && editingUser.None? && selectedRoles == [] && isUserActive
      ensures editUserMessage.None? && editUserError.None?
    {
      userData, selectedAssignmentId, payoutAmount := None, None, Blank;
      payoutMessage, payoutError, isPayoutSubmitting := None, None, false;
      helperRegistrationOpen, registrationStatusError, togglingRegistration := false, None, false;
      showEditUserModal, editingUser, selectedRoles, isUserActive := false, None, [], true;
      editUserMessage, editUserError := None, None;
    }

    /** The mount effect; `parse` stands for `JSON.parse`. */
    method Mount(items: map<string, string>, parse: string -> Option<UserData>)
      returns (navigation: Option<string>)
      modifies this`userData
      ensures AdminAccess(items, parse).Granted? ==>
        userData == Some(AdminAccess(items, parse).user) && navigation.None?
      ensures AdminAccess(items, parse).Redirect? ==>
        userData == old(userData) && navigation == Some(App.LoginPath)
      ensures AdminAccess(items, parse).ParseThrows? ==> userData == old(userData) && navigation.None?
      ensures selectedAssignmentId == old(selectedAssignmentId) && payoutAmount == old(payoutAmount)
      ensures selectedRoles == old(selectedRoles)
    {
      navigation := None;
      var access := AdminAccess(items, parse);
      match access {
      case Granted(user) => userData := Some(user);
      case Redirect(path) => navigation := Some(path);
      case ParseThrows =>
      }
    }

    /** Whether a user row shows the Delete button. */
    function DeleteOfferedFor(row: UserData): (r: bool)
      reads this
      ensures userData.Some? && row.id == userData.value.id ==> !r
      ensures r <==> DeleteOffered(userData, row)
    {
      DeleteOffered(userData, row)
    }

    /** `handleSetPayoutClick`: open the modal with the current payout and no messages. */
    method SetPayoutClick(assignmentId: string, currentPayout: Option<real>)
      modifies this`selectedAssignmentId, this`payoutAmount, this`payoutMessage, this`payoutError
      ensures selectedAssignmentId == Some(assignmentId) && payoutAmount == PrefillPayout(currentPayout)
      ensures payoutMessage.None? && payoutError.None?
      ensures isPayoutSubmitting == old(isPayoutSubmitting) && userData == old(userData)
    {
      selectedAssignmentId := Some(assignmentId);
      payoutAmount := PrefillPayout(currentPayout);
      payoutMessage, payoutError := None, None;
    }

    /** The amount input: clearing it gives `''`, anything else its number. */
    method PayoutInput(amount: PayoutField)
      modifies this`payoutAmount
      ensures payoutAmount == amount && selectedAssignmentId == old(selectedAssignmentId)
      ensures payoutMessage == old(payoutMessage) && payoutError == old(payoutError)
    {
      payoutAmount := amount;
    }

    /** Whether the modal's submit button is disabled. */
    function PayoutButtonDisabled(): (r: bool)
      reads this
      ensures !r && Truthy(selectedAssignmentId) ==>
        SetPayoutCheck(selectedAssignmentId, payoutAmount).Success? &&
        SetPayoutCheck(selectedAssignmentId, payoutAmount).value.helperPayoutAmount > 0.0
    {
      PayoutSubmitDisabled(isPayoutSubmitting, payoutAmount)
    }

    /**
     * `handleSetPayout`: the guard, then the request and its reply. On a 200
     * the modal closes and the amount is cleared; otherwise the selection and
     * the amount stay as they were.
     */
    method SetPayout(reply: PayoutReply) returns (sent: Option<PayoutRequest>)
      modifies this`selectedAssignmentId, this`payoutAmount, this`payoutMessage, this`payoutError,
        this`isPayoutSubmitting
      ensures SetPayoutCheck(old(selectedAssignmentId), old(payoutAmount)).Failure? ==>
        sent.None? && payoutError == Some(PayoutRequired) && payoutMessage == old(payoutMessage) &&
        selectedAssignmentId == old(selectedAssignmentId) && payoutAmount == old(payoutAmount) &&
        isPayoutSubmitting == old(isPayoutSubmitting)
      ensures SetPayoutCheck(old(selectedAssignmentId), old(payoutAmount)).Success? ==>
        sent == Some(SetPayoutCheck(old(selectedAssignmentId), old(payoutAmount)).value) && !isPayoutSubmitting
      ensures sent.Some? && reply.PayoutResponded? && reply.status == 200 ==>
        payoutMessage == Some(PayoutSet) && payoutError.None? &&
        selectedAssignmentId.None? && payoutAmount == Blank
      ensures sent.Some? && reply.PayoutResponded? && Resolves(reply.status) && reply.status != 200 ==>
        payoutError == Some(MessageOr(reply.message, "Failed to set payout amount.")) && payoutMessage.None? &&
        selectedAssignmentId == old(selectedAssignmentId) && payoutAmount == old(payoutAmount)
      ensures sent.Some? && (reply.PayoutRequestFailed? || !Resolves(reply.status)) ==>
        payoutError == Some(MessageOr(reply.message, "An error occurred while setting payout.")) &&
        payoutMessage.None? &&
        selectedAssignmentId == old(selectedAssignmentId) && payoutAmount == old(payoutAmount)
      ensures userData == old(userData) && helperRegistrationOpen == old(helperRegistrationOpen)
    {
      var check := SetPayoutCheck(selectedAssignmentId, payoutAmount);
      if check.Failure? {
        payoutError := Some(check.error);
        return None;
      }
      isPayoutSubmitting, payoutMessage, payoutError := true, None, None;
      sent := Some(check.value);
      match reply {
      case PayoutResponded(status, msg) =>
        if !Resolves(status) {
          payoutError := Some(MessageOr(msg, "An error occurred while setting payout."));
        } else if status == 200 {
          payoutMessage := Some(PayoutSet);
          selectedAssignmentId, payoutAmount := None, Blank;
        } else {
          payoutError := Some(MessageOr(msg, "Failed to set payout amount."));
        }
      case PayoutRequestFailed(msg) =>
        payoutError := Some(MessageOr(msg, "An error occurred while setting payout."));
      }
      isPayoutSubmitting := false;
    }

    /**
     * `handleToggleHelperRegistration`: ask for the opposite of the current
     * setting and show what the backend answers. Returns the `isOpen` sent.
     */
    method ToggleRegistration(reply: ToggleReply) returns (requested: bool)
      modifies this`helperRegistrationOpen, this`payoutMessage, this`registrationStatusError,
        this`togglingRegistration
      ensures requested == !old(helperRegistrationOpen) && !togglingRegistration
      ensures reply.Toggled? ==>
        helperRegistrationOpen == reply.isOpen && payoutMessage == reply.message &&
        registrationStatusError.None?
      ensures reply.ToggleFailed? ==>
        helperRegistrationOpen == old(helperRegistrationOpen) && payoutMessage == old(payoutMessage) &&
        registrationStatusError == Some(MessageOr(reply.message, "Failed to toggle registration status."))
      ensures payoutError == old(payoutError) && selectedAssignmentId == old(selectedAssignmentId)
      ensures userData == old(userData) && selectedRoles == old(selectedRoles)
    {
      togglingRegistration, registrationStatusError := true, None;
      requested := !helperRegistrationOpen;
      match reply {
      case Toggled(isOpen, msg) =>
        helperRegistrationOpen, payoutMessage := isOpen, msg;
      case ToggleFailed(msg) =>
        registrationStatusError := Some(MessageOr(msg, "Failed to toggle registration status."));
      }
      togglingRegistration := false;
    }

    /** `handleEditUserClick`: open the editor on a copy of the user's roles and status. */
    method EditUserClick(user: UserData)
      modifies this`editingUser, this`selectedRoles, this`isUserActive, this`showEditUserModal,
        this`editUserMessage, this`editUserError
      ensures editingUser == Some(user) && selectedRoles == user.roles && isUserActive == user.isActive
      ensures showEditUserModal && editUserMessage.None? && editUserError.None?
      ensures userData == old(userData) && selectedAssignmentId == old(selectedAssignmentId)
    {
      editingUser, selectedRoles, isUserActive := Some(user), user.roles, user.isActive;
      showEditUserModal, editUserMessage, editUserError := true, None, None;
    }

    /** `handleRoleChange`: a role checkbox flips that role in the edited list. */
    method RoleChange(role: string)
      modifies this`selectedRoles
      ensures selectedRoles == ToggleRole(old(selectedRoles), role)
      ensures role in selectedRoles <==> role !in old(selectedRoles)
      ensures editingUser == old(editingUser) && isUserActive == old(isUserActive)
      ensures userData == old(userData)
    {
      selectedRoles := ToggleRole(selectedRoles, role);
    }
  }
}
