/**
 * The accept-assignment page: the mount-time fetch with its eligibility
 * cascade, and the accept handler.
 */
module AcceptAssignment {
  import opened Wrappers
  import opened Domain
  import Browser
  import App

  const NotAuthenticated: string := "User not authenticated. Please log in."
  const IdMissing: string := "Assignment ID is missing."
  const LoadFailed: string := "Failed to load assignment for acceptance."
  const NotHelper: string := "Access Denied: You must be a helper to accept assignments."
  const AlreadyTaken: string := "This assignment has already been accepted by another helper."
  const PayoutNotSet: string := "This assignment is not yet ready for acceptance. Admin needs to set the helper payout."
  const DataMissing: string := "Authentication or assignment data missing."
  const AcceptFailed: string := "Failed to accept assignment."

  /** The refusal for an assignment that is no longer pending, around the status label. */
  function NotPendingText(shown: string): (r: string)
    ensures |r| == 48 + |shown|
  {
    "Assignment cannot be accepted. Current status: " + shown + "."
  }

  /** The refusal for an assignment that is no longer pending, naming its status. */
  function NotPending(s: Status): string
  {
    NotPendingText(StatusLabel(StatusName(s)))
  }

  // ---------------------------------------------------------------------------
  // The route parameter

  /** The assignment id the page reads from its route parameters, under the name the route declares. */
  function AssignmentIdParam(params: map<string, string>): (r: Option<string>)
    ensures r.Some? <==> "assignmentId" in params
    ensures r.Some? ==> r.value == params["assignmentId"]
  {
    Browser.Get(params, "assignmentId")
  }

  /** The lookup as the page writes it: `useParams` destructured as `{ id }`. */
  function AssignmentIdParamAsWritten(params: map<string, string>): (r: Option<string>)
    ensures r.Some? <==> "id" in params
    ensures r.Some? ==> r.value == params["id"]
  {
    Browser.Get(params, "id")
  }

  /** The accept route carries its id under `assignmentId`, so the written lookup never finds one. */
  lemma IdNeverFoundAsWritten(path: string)
    requires App.Match(path).route == App.AcceptRoute
    ensures AssignmentIdParamAsWritten(App.Match(path).params).None?
  {
  }

  /** `/accept-assignment/<id>` for a one-segment id yields that id under `assignmentId`. */
  lemma {:induction false} AcceptPathGivesId(id: string)
    requires App.IsSegment(id)
    ensures App.Match(App.AcceptPrefix + id) == App.RouteMatch(App.AcceptRoute, map["assignmentId" := id])
    ensures AssignmentIdParam(App.Match(App.AcceptPrefix + id).params) == Some(id)
  {
    var path := App.AcceptPrefix + id;
    assert path[..|App.AcceptPrefix|] == App.AcceptPrefix;
    assert path[|App.AcceptPrefix|..] == id;
    assert path[1] == 'a' && path[2] == 'c';
    assert path != App.LoginPath && path != "/local-login" && path != "/register-helper" by {
      assert path[1] != App.LoginPath[1];
      assert path[1] != "/local-login"[1];
      assert path[1] != "/register-helper"[1];
    }
  }

  // ---------------------------------------------------------------------------
  // Eligibility

  /** `adminDeterminedHelperPayout` is neither undefined nor null and is positive. */
  predicate PayoutReady(a: Assignment)
  {
    a.payout.Some? && a.payout.value > 0.0
  }

  /** The checks after a fetch, in the order role, status, helper, payout; the first failure is reported. */
  function Eligibility(user: UserData, a: Assignment): (r: Option<string>)
    ensures r.None? <==> HasRole(user, HelperRole) && a.status == Pending && a.helperId.None? && PayoutReady(a)
    ensures !HasRole(user, HelperRole) ==> r == Some(NotHelper)
  {
    if !HasRole(user, HelperRole) then Some(NotHelper)
    else if a.status != Pending then Some(NotPending(a.status))
    else if a.helperId.Some? then Some(AlreadyTaken)
    else if !PayoutReady(a) then Some(PayoutNotSet)
    else None
  }

  /** The not-pending refusal is 48 characters longer than the raw status. */
  lemma NotPendingLength(s: Status)
    ensures |NotPending(s)| == 48 + |StatusName(s)|
  {
  }

  /** Raw statuses are 3, 4, 7, 8, 9, 16 or 21 characters long. */
  lemma StatusNameLength(s: Status)
    ensures var n := |StatusName(s)|; n == 3 || n == 4 || n == 7 || n == 8 || n == 9 || n == 16 || n == 21
  {
  }

  /** The lengths of the three fixed refusals. */
  lemma RefusalLengths()
    ensures |NotHelper| == 58 && |AlreadyTaken| == 60 && |PayoutNotSet| == 86
  {
  }

  /** A not-pending refusal around a label of a raw status's length is none of the other three. */
  lemma NotPendingTextDistinct(shown: string)
    requires var n := |shown|; n == 3 || n == 4 || n == 7 || n == 8 || n == 9 || n == 16 || n == 21
    ensures NotPendingText(shown) != NotHelper && NotPendingText(shown) != AlreadyTaken &&
      NotPendingText(shown) != PayoutNotSet
  {
    RefusalLengths();
  }

  /** The not-pending refusal, whatever the status, is none of the other three. */
  lemma NotPendingDistinct(s: Status)
    ensures NotPending(s) != NotHelper && NotPending(s) != AlreadyTaken && NotPending(s) != PayoutNotSet
  {
    StatusNameLength(s);
    NotPendingTextDistinct(StatusLabel(StatusName(s)));
  }

  /** No two of the four refusals are the same text. */
  lemma RefusalsDistinct()
    ensures NotHelper != AlreadyTaken && NotHelper != PayoutNotSet && AlreadyTaken != PayoutNotSet
    ensures forall s :: NotPending(s) != NotHelper && NotPending(s) != AlreadyTaken && NotPending(s) != PayoutNotSet
  {
    RefusalLengths();
    forall s: Status
      ensures NotPending(s) != NotHelper && NotPending(s) != AlreadyTaken && NotPending(s) != PayoutNotSet
    {
      NotPendingDistinct(s);
    }
  }

  /** The refusals differ from one another, so the one shown names the first check that failed. */
  lemma EligibilityNamesFirstFailure(user: UserData, a: Assignment)
    ensures Eligibility(user, a) == Some(NotHelper) <==> !HasRole(user, HelperRole)
    ensures (exists s :: Eligibility(user, a) == Some(NotPending(s))) <==>
      (HasRole(user, HelperRole) && a.status != Pending)
    ensures Eligibility(user, a) == Some(AlreadyTaken) <==>
      (HasRole(user, HelperRole) && a.status == Pending && a.helperId.Some?)
    ensures Eligibility(user, a) == Some(PayoutNotSet) <==>
      (HasRole(user, HelperRole) && a.status == Pending && a.helperId.None? && !PayoutReady(a))
  {
    RefusalsDistinct();
    var r := Eligibility(user, a);
    if !HasRole(user, HelperRole) {
      assert r == Some(NotHelper);
    } else if a.status != Pending {
      assert r == Some(NotPending(a.status));
    } else if a.helperId.Some? {
      assert r == Some(AlreadyTaken);
    } else if !PayoutReady(a) {
      assert r == Some(PayoutNotSet);
    } else {
      assert r.None?;
    }
  }

  /** An undefined or null payout, or one at most zero, always blocks acceptance. */
  lemma UnsetPayoutBlocks(user: UserData, a: Assignment)
    requires a.payout.None? || a.payout.value <= 0.0
    ensures Eligibility(user, a).Some?
    ensures HasRole(user, HelperRole) && a.status == Pending && a.helperId.None? ==>
      Eligibility(user, a) == Some(PayoutNotSet)
  {
  }

  // ---------------------------------------------------------------------------
  // The page state and its handlers

  /** The page's state. */
  datatype View = View(
    userData: Option<UserData>,
    assignment: Option<Assignment>,
    loading: bool,
    error: Option<string>,
    message: Option<string>,
    isSubmitting: bool)

  /** What a fetch leaves: the new state, the id requested if any, and the navigation if any. */
  datatype Fetch = Fetch(view: View, requested: Option<string>, navigation: Option<string>)

  /**
   * What the page keeps from the fetched body. A missing `assignment` is read
   * for its status only after the role check, where the `TypeError` lands in
   * the `catch` and shows the generic load error.
   */
  function Screened(user: UserData, fetched: Option<Assignment>): (r: (Option<Assignment>, Option<string>))
    ensures r.0.Some? <==> fetched.Some? && Eligibility(user, fetched.value).None?
    ensures r.0.Some? ==> r.0 == fetched && r.1.None?
    ensures r.0.None? ==> r.1.Some?
    ensures fetched.Some? && r.0.None? ==> r.1 == Eligibility(user, fetched.value)
    ensures fetched.None? ==> r.1 == Some(if HasRole(user, HelperRole) then LoadFailed else NotHelper)
  {
    if !HasRole(user, HelperRole) then (None, Some(NotHelper))
    else if fetched.None? then (None, Some(LoadFailed))
    else
      var e := Eligibility(user, fetched.value);
      if e.Some? then (None, e) else (fetched, None)
  }

  /**
   * `fetchAssignment`, run on mount: the stored user, then the id, then the
   * request and the checks. `parse` stands for `JSON.parse`, which runs inside
   * the `try` here.
   */
  function FetchAssignment(v: View, items: map<string, string>, id: Option<string>,
                           parse: string -> Option<UserData>, reply: FetchReply): (r: Fetch)
    ensures !r.view.loading && r.view.message.None? && r.view.isSubmitting == v.isSubmitting
    ensures !Truthy(Browser.Get(items, Browser.UserDataKey)) ==>
      r.view.error == Some(NotAuthenticated) && r.navigation == Some("/") && r.view.userData == v.userData
    ensures r.navigation.Some? ==> r.navigation == Some("/") && r.requested.None?
    ensures r.requested.Some? <==>
      Truthy(Browser.Get(items, Browser.UserDataKey)) && parse(items[Browser.UserDataKey]).Some? && Truthy(id)
    ensures r.requested.Some? ==> r.requested == id
    ensures Truthy(Browser.Get(items, Browser.UserDataKey)) && parse(items[Browser.UserDataKey]).Some? ==>
      r.view.userData == parse(items[Browser.UserDataKey])
    ensures Truthy(Browser.Get(items, Browser.UserDataKey)) && parse(items[Browser.UserDataKey]).Some? && !Truthy(id) ==>
      r.view.error == Some(IdMissing) && r.view.assignment == v.assignment
    ensures r.requested.Some? && reply.Fetched? ==>
      (r.view.assignment.Some? <==>
        reply.assignment.Some? && Eligibility(r.view.userData.value, reply.assignment.value).None?)
    ensures r.requested.Some? && reply.Fetched? && r.view.assignment.Some? ==>
      r.view.assignment == reply.assignment && r.view.error.None?
    ensures r.requested.Some? && reply.FetchFailed? ==>
      r.view.assignment == v.assignment && r.view.error == Some(MessageOr(reply.message, LoadFailed))
  {
    var v := v.(error := None, message := None);
    var stored := Browser.Get(items, Browser.UserDataKey);
    if !Truthy(stored) then
      Fetch(v.(error := Some(NotAuthenticated), loading := false), None, Some("/"))
    else
      match parse(stored.value)
      case None => Fetch(v.(error := Some(LoadFailed), loading := false), None, None)
      case Some(user) =>
        if !Truthy(id) then
          Fetch(v.(userData := Some(user), error := Some(IdMissing), loading := false), None, None)
        else
          match reply
          case FetchFailed(msg) =>
            Fetch(v.(userData := Some(user), error := Some(MessageOr(msg, LoadFailed)), loading := false), id, None)
          case Fetched(fetched) =>
            var s := Screened(user, fetched);
            Fetch(v.(userData := Some(user), assignment := s.0, error := s.1, loading := false), id, None)
  }

  /** With the route's own parameter name, a one-segment id in the path is the id requested. */
  lemma PathIdIsRequested(v: View, items: map<string, string>, id: string,
                          parse: string -> Option<UserData>, reply: FetchReply)
    requires App.IsSegment(id)
    requires Browser.UserDataKey in items && items[Browser.UserDataKey] != ""
    requires parse(items[Browser.UserDataKey]).Some?
    ensures FetchAssignment(v, items, AssignmentIdParam(App.Match(App.AcceptPrefix + id).params), parse, reply).requested
      == Some(id)
  {
    AcceptPathGivesId(id);
  }

  /** As written, every signed-in visit to the accept route stops at "Assignment ID is missing." */
  lemma IdMissingAsWritten(v: View, items: map<string, string>, path: string,
                           parse: string -> Option<UserData>, reply: FetchReply)
    requires App.Match(path).route == App.AcceptRoute
    requires Browser.UserDataKey in items && items[Browser.UserDataKey] != ""
    requires parse(items[Browser.UserDataKey]).Some?
    ensures FetchAssignment(v, items, AssignmentIdParamAsWritten(App.Match(path).params), parse, reply).view.error
      == Some(IdMissing)
    ensures FetchAssignment(v, items, AssignmentIdParamAsWritten(App.Match(path).params), parse, reply).requested.None?
  {
    IdNeverFoundAsWritten(path);
  }

  /** The reply to `POST /assignments/:id/accept`. */
  datatype AcceptReply =
    | Accepted(message: Option<string>)
    | AcceptRequestFailed(message: Option<string>)

  /** What an accept click leaves: the new state, the id posted if any, and the navigation if any. */
  datatype Accept = Accept(view: View, sent: Option<string>, navigation: Option<string>)

  /**
   * `handleAcceptAssignment`: without a user or an assignment nothing is sent;
   * otherwise the backend's message is shown and the page returns to `/`.
   */
  function AcceptAssignment(v: View, reply: AcceptReply): (r: Accept)
    ensures !r.view.isSubmitting && r.view.assignment == v.assignment && r.view.userData == v.userData
    ensures r.sent.Some? <==> v.userData.Some? && v.assignment.Some?
    ensures r.sent.Some? ==> r.sent.value == v.assignment.value.id
    ensures r.sent.None? ==> r.view.error == Some(DataMissing) && r.view.message.None? && r.navigation.None?
    ensures r.navigation.Some? <==> r.sent.Some? && reply.Accepted?
    ensures r.navigation.Some? ==> r.navigation == Some("/") && r.view.message == reply.message && r.view.error.None?
    ensures r.sent.Some? && reply.AcceptRequestFailed? ==>
      r.view.error == Some(MessageOr(reply.message, AcceptFailed)) && r.view.message.None?
  {
    var v := v.(message := None, error := None);
    if v.userData.None? || v.assignment.None? then
      Accept(v.(error := Some(DataMissing), isSubmitting := false), None, None)
    else
      var sent := Some(v.assignment.value.id);
      match reply
      case Accepted(msg) => Accept(v.(message := msg, isSubmitting := false), sent, Some("/"))
      case AcceptRequestFailed(msg) =>
        Accept(v.(error := Some(MessageOr(msg, AcceptFailed)), isSubmitting := false), sent, None)
  }

  /** A page that kept its assignment posts the accept for exactly that assignment. */
  lemma KeptAssignmentIsAccepted(v: View, items: map<string, string>, id: Option<string>,
                                 parse: string -> Option<UserData>, fetchReply: FetchReply, reply: AcceptReply)
    requires v.assignment.None?
    requires FetchAssignment(v, items, id, parse, fetchReply).requested.Some?
    requires FetchAssignment(v, items, id, parse, fetchReply).view.assignment.Some?
    ensures fetchReply.Fetched? && fetchReply.assignment.Some?
    ensures AcceptAssignment(FetchAssignment(v, items, id, parse, fetchReply).view, reply).sent ==
      Some(fetchReply.assignment.value.id)
  {
  }

  class AcceptAssignmentPage {
    var userData: Option<UserData>
    var assignment: Option<Assignment>
    var loading: bool
    var error: Option<string>
    var message: Option<string>
    var isSubmitting: bool

    constructor ()
      ensures Current() == View(None, None, true, None, None, false)
    {
      userData, assignment, loading, error, message, isSubmitting := None, None, true, None, None, false;
    }

    function Current(): View
      reads this
    {
      View(userData, assignment, loading, error, message, isSubmitting)
    }

    /** Puts `v` into the fields. */
    method Set(v: View)
      modifies this
      ensures Current() == v
    {
      userData, assignment, loading, error, message := v.userData, v.assignment, v.loading, v.error, v.message;
      isSubmitting := v.isSubmitting;
    }

    /**
     * The mount effect as written: it reads the id under `id`, a name the route
     * never supplies, so a signed-in visit to the accept route reports the
     * missing id (`IdMissingAsWritten`).
     */
    method Load(items: map<string, string>, params: map<string, string>,
                parse: string -> Option<UserData>, reply: FetchReply)
      returns (requested: Option<string>, navigation: Option<string>)
      modifies this
      ensures Current() == FetchAssignment(old(Current()), items, AssignmentIdParamAsWritten(params), parse, reply).view
      ensures requested == FetchAssignment(old(Current()), items, AssignmentIdParamAsWritten(params), parse, reply).requested
      ensures navigation == FetchAssignment(old(Current()), items, AssignmentIdParamAsWritten(params), parse, reply).navigation
    {
      var r := FetchAssignment(Current(), items, AssignmentIdParamAsWritten(params), parse, reply);
      Set(r.view);
      requested, navigation := r.requested, r.navigation;
    }

    /** The "Accept Assignment" button. */
    method AcceptClick(reply: AcceptReply) returns (sent: Option<string>, navigation: Option<string>)
      modifies this
      ensures Current() == AcceptAssignment(old(Current()), reply).view
      ensures sent == AcceptAssignment(old(Current()), reply).sent
      ensures navigation == AcceptAssignment(old(Current()), reply).navigation
    {
      var r := AcceptAssignment(Current(), reply);
      Set(r.view);
      sent, navigation := r.sent, r.navigation;
    }
  }
}
