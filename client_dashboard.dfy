/**
 * The client dashboard: the access check, the owner filter, the review
 * button and the page's own logout.
 */
module ClientDashboard {
  import opened Wrappers
  import opened Domain
  import Browser
  import Seqs
  import App
  import Text
  import ReviewAssignment

  /**
   * The mount effect: a stored user without the client role goes to `/`, no
   * stored user to the login page. The stored text is parsed outside any `try`.
   */
  function ClientAccess(items: map<string, string>, parse: string -> Option<UserData>): (r: Access)
    ensures !Truthy(Browser.Get(items, Browser.UserDataKey)) ==> r == Redirect(App.LoginPath)
    ensures r.ParseThrows? <==>
      Truthy(Browser.Get(items, Browser.UserDataKey)) && parse(items[Browser.UserDataKey]).None?
    ensures Truthy(Browser.Get(items, Browser.UserDataKey)) && parse(items[Browser.UserDataKey]).Some? ==>
      (if HasRole(parse(items[Browser.UserDataKey]).value, ClientRole)
       then r == Granted(parse(items[Browser.UserDataKey]).value)
       else r == Redirect("/"))
  {
    var stored := Browser.Get(items, Browser.UserDataKey);
    if !Truthy(stored) then Redirect(App.LoginPath)
    else
      match parse(stored.value)
      case None => ParseThrows
      case Some(user) => if !HasRole(user, ClientRole) then Redirect("/") else Granted(user)
  }

  /** Every user the page keeps is a client. */
  lemma ClientAccessGrantsClients(items: map<string, string>, parse: string -> Option<UserData>)
    requires ClientAccess(items, parse).Granted?
    ensures HasRole(ClientAccess(items, parse).user, ClientRole)
    ensures Some(ClientAccess(items, parse).user) == parse(items[Browser.UserDataKey])
  {
  }

  // ---------------------------------------------------------------------------
  // The owner filter

  /** `a.ownerId._id === userId`. */
  function OwnedBy(userId: string): Assignment -> bool
  {
    (a: Assignment) => a.ownerId == userId
  }

  /** The assignments the client created, in the order the backend sent them. */
  function Owned(fetched: seq<Assignment>, userId: string): (r: seq<Assignment>)
    ensures forall a :: a in r <==> a in fetched && a.ownerId == userId
    ensures |r| <= |fetched|
  {
    Seqs.Filter(fetched, OwnedBy(userId))
  }

  /** The filter keeps the order: two batches filter to the two filtered batches. */
  lemma OwnedKeepsOrder(first: seq<Assignment>, second: seq<Assignment>, userId: string)
    ensures Owned(first + second, userId) == Owned(first, userId) + Owned(second, userId)
  {
    Seqs.FilterConcat(first, second, OwnedBy(userId));
  }

  /** Each of the client's assignments is kept as often as it was sent; nobody else's is kept. */
  lemma OwnedCounts(fetched: seq<Assignment>, userId: string, a: Assignment)
    ensures multiset(Owned(fetched, userId))[a] == if a.ownerId == userId then multiset(fetched)[a] else 0
  {
    Seqs.FilterCount(fetched, OwnedBy(userId), a);
  }

  /** A list holding only the client's own assignments is shown whole. */
  lemma OwnedOfOwn(fetched: seq<Assignment>, userId: string)
    requires forall a :: a in fetched ==> a.ownerId == userId
    ensures Owned(fetched, userId) == fetched
  {
    Seqs.FilterAll(fetched, OwnedBy(userId));
  }

  // ---------------------------------------------------------------------------
  // Review button

  /** "Review Work" is offered only for assignments awaiting the client's review. */
  predicate ReviewOffered(a: Assignment)
  {
    a.status == PendingClientReview
  }

  /** Where "Review Work" goes. */
  function ReviewTarget(a: Assignment): (r: string)
    ensures App.HasPrefix(r, App.ReviewPrefix) && r[|App.ReviewPrefix|..] == a.id
  {
    App.ReviewPrefix + a.id
  }

  /** The review path for a one-segment id opens the review route with that id. */
  lemma {:induction false} ReviewTargetRoutes(a: Assignment)
    requires App.IsSegment(a.id)
    ensures App.Match(ReviewTarget(a)) == App.RouteMatch(App.ReviewRoute, map["assignmentId" := a.id])
  {
    var path := ReviewTarget(a);
    assert path[..|App.ReviewPrefix|] == App.ReviewPrefix;
    assert path[|App.ReviewPrefix|..] == a.id;
    assert path[1] == 'r' && path[3] == 'v';
    assert !App.HasPrefix(path, App.AcceptPrefix) by {
      assert path[1] != App.AcceptPrefix[1];
    }
    assert path != App.LoginPath && path != "/local-login" && path != "/register-helper" by {
      assert path[1] != App.LoginPath[1];
      assert path[1] != "/local-login"[1];
      assert path[3] != "/register-helper"[3];
    }
  }

  /** A button shown on the client's own list always leads to a review the review page allows. */
  lemma ReviewButtonPassesGate(fetched: seq<Assignment>, user: UserData, a: Assignment)
    requires a in Owned(fetched, user.id) && ReviewOffered(a)
    ensures ReviewAssignment.ReviewGate(user, a).None?
  {
  }

  /** The client copy of `isSummarizable` is the review page's test, so both accept the same files. */
  lemma SameSummarizableFiles(base: string, ext: string)
    requires '.' !in ext
    ensures ReviewAssignment.IsSummarizable(base + "." + ext) <==>
      Text.ToLower(ext) in ReviewAssignment.SummarizableExtensions
  {
    ReviewAssignment.SummarizableByExtension(base, ext);
  }

  // ---------------------------------------------------------------------------
  // Logout

  /** The page's own `handleLogout`: both keys go; the logout flag is left alone. */
  function ClientLogout(items: map<string, string>): (r: map<string, string>)
    ensures Browser.UserDataKey !in r && Browser.TokenKey !in r
    ensures forall k :: k != Browser.UserDataKey && k != Browser.TokenKey ==> (k in r <==> k in items)
    ensures forall k :: k in r ==> r[k] == items[k]
  {
    items - {Browser.UserDataKey, Browser.TokenKey}
  }

  /** After this logout no stored session remains, and the flag is exactly as it was. */
  lemma ClientLogoutEndsStoredSession(items: map<string, string>, parse: string -> Option<UserData>)
    ensures App.StoredUser(ClientLogout(items), parse).None?
    ensures App.LoggingOut(ClientLogout(items)) == App.LoggingOut(items)
  {
  }

  // ---------------------------------------------------------------------------
  // The page state

  /** The reply to `GET /api/assignments`: the list, or a failure with the backend's message if any. */
  datatype AssignmentsReply = Listed(all: seq<Assignment>) | ListFailed(message: Option<string>)

  const LoadAssignmentsFailed: string := "Failed to load assignments."

  class ClientDashboardPage {
    var userData: Option<UserData>
    var assignments: seq<Assignment>
    var loading: bool
    var error: Option<string>

    constructor ()
      ensures userData.None? && assignments == [] && loading && error.None?
    {
      userData, assignments, loading, error := None, [], true, None;
    }

    /** The mount effect; returns the id the assignments are fetched for, if any. */
    method Mount(items: map<string, string>, parse: string -> Option<UserData>)
      returns (fetchFor: Option<string>, navigation: Option<string>)
      modifies this`userData
      ensures ClientAccess(items, parse).Granted? ==>
        userData == Some(ClientAccess(items, parse).user) && fetchFor == Some(ClientAccess(items, parse).user.id) &&
        navigation.None?
      ensures ClientAccess(items, parse).Redirect? ==>
        userData == old(userData) && fetchFor.None? && navigation == Some(ClientAccess(items, parse).path)
      ensures ClientAccess(items, parse).ParseThrows? ==>
        userData == old(userData) && fetchFor.None? && navigation.None?
      ensures assignments == old(assignments)
    {
      fetchFor, navigation := None, None;
      var access := ClientAccess(items, parse);
      match access {
      case Granted(user) => userData, fetchFor := Some(user), Some(user.id);
      case Redirect(path) => navigation := Some(path);
      case ParseThrows =>
      }
    }

    /** `fetchAssignments(userId)`: keep only the client's own assignments. */
    method FetchAssignments(userId: string, reply: AssignmentsReply)
      modifies this`assignments, this`loading, this`error
      ensures !loading && userData == old(userData)
      ensures reply.Listed? ==> assignments == Owned(reply.all, userId) && error.None?
      ensures reply.ListFailed? ==>
        assignments == old(assignments) && error == Some(MessageOr(reply.message, LoadAssignmentsFailed))
    {
      loading, error := true, None;
      match reply {
      case Listed(fetched) => assignments := Owned(fetched, userId);
      case ListFailed(msg) => error := Some(MessageOr(msg, LoadAssignmentsFailed));
      }
      loading := false;
    }

    /** "Review Work" on an assignment card. */
    method ReviewClick(a: Assignment) returns (navigation: string)
      requires ReviewOffered(a)
      ensures navigation == ReviewTarget(a)
    {
      navigation := ReviewTarget(a);
    }

    /** The Logout button. */
    method HandleLogout(storage: Browser.LocalStorage) returns (navigation: string)
      modifies storage
      ensures storage.items == ClientLogout(old(storage.items))
      ensures navigation == App.LoginPath
    {
      storage.RemoveItem(Browser.UserDataKey);
      storage.RemoveItem(Browser.TokenKey);
      navigation := App.LoginPath;
    }
  }
}
