/**
 * The client's review page: the stored-user and ownership checks of the
 * mount-time fetch, the review handler, and the test for files the
 * summarizer accepts.
 */
module ReviewAssignment {
  import opened Wrappers
  import opened Domain
  import Text
  import Browser
  import App

  const AuthError: string := "Authentication error. Please log in again."
  const LoginRequired: string := "You must be logged in to review assignments. Redirecting to login..."
  const Forbidden: string := "Forbidden: You are not the owner of this assignment."
  const LoadDetailsFailed: string := "Failed to load assignment details."
  const ReviewDataMissing: string := "User data or assignment ID missing."
  const ReviewFailed: string := "Failed to submit review."

  /** The refusal for an assignment not awaiting review, naming its status. */
  function NotReviewable(s: Status): string
  {
    "This assignment is currently in \"" + StatusLabel(StatusName(s)) + "\" status and cannot be reviewed."
  }

  // ---------------------------------------------------------------------------
  // Summarizable files

  /** The extensions the summarizer accepts. */
  const SummarizableExtensions: set<string> := {"txt", "pdf", "doc", "docx"}

  /** The four extensions are three or four characters long. */
  lemma ExtensionLengths(e: string)
    requires e in SummarizableExtensions
    ensures |e| == 3 || |e| == 4
  {
    assert e == "txt" || e == "pdf" || e == "doc" || e == "docx";
  }

  /** `isSummarizable`: the lower-cased text after the last `.`, or the whole name without one. */
  function IsSummarizable(filename: string): (r: bool)
    ensures r ==> |Text.LastSegment(filename, '.')| in {3, 4}
    ensures r ==> '.' !in Text.LastSegment(filename, '.')
  {
    var ext := Text.ToLower(Text.LastSegment(filename, '.'));
    if ext in SummarizableExtensions then
      ExtensionLengths(ext);
      true
    else false
  }

  /** A name ending in `.ext` is summarizable exactly when `ext` is one of the four, in any case. */
  lemma SummarizableByExtension(base: string, ext: string)
    requires '.' !in ext
    ensures IsSummarizable(base + "." + ext) <==> Text.ToLower(ext) in SummarizableExtensions
  {
    Text.LastSegmentOfJoin(base, '.', ext);
  }

  /** A name without a dot is tested as a whole. */
  lemma SummarizableWithoutDot(name: string)
    requires '.' !in name
    ensures IsSummarizable(name) <==> Text.ToLower(name) in SummarizableExtensions
  {
    Text.LastSegmentNoSep(name, '.');
  }

  /** Names that differ only in the case of their letters are treated alike. */
  lemma SummarizableIgnoresCase(a: string, b: string)
    requires Text.ToLower(a) == Text.ToLower(b)
    ensures IsSummarizable(a) == IsSummarizable(b)
  {
    Text.LastSegmentOfLower(a, '.');
    Text.LastSegmentOfLower(b, '.');
  }

  /** In particular upper-casing a name does not change the answer. */
  lemma SummarizableUpperCase(name: string)
    ensures IsSummarizable(Text.ToUpper(name)) == IsSummarizable(name)
  {
    Text.LowerOfUpper(name);
    SummarizableIgnoresCase(Text.ToUpper(name), name);
  }

  // ---------------------------------------------------------------------------
  // Review gate

  /** The checks on a fetched assignment: the owner first, then the status. */
  function ReviewGate(user: UserData, a: Assignment): (r: Option<string>)
    ensures r.None? <==> a.ownerId == user.id && a.status == PendingClientReview
    ensures a.ownerId != user.id ==> r == Some(Forbidden)
    ensures a.ownerId == user.id && a.status != PendingClientReview ==> r == Some(NotReviewable(a.status))
  {
    if a.ownerId != user.id then Some(Forbidden)
    else if a.status != PendingClientReview then Some(NotReviewable(a.status))
    else None
  }

  /** The status refusal is 65 characters longer than the raw status, so never the ownership refusal. */
  lemma NotReviewableIsNotForbidden(s: Status)
    ensures |NotReviewable(s)| == 65 + |StatusName(s)|
    ensures NotReviewable(s) != Forbidden
  {
    assert |Forbidden| == 52;
  }

  /** A non-owner learns nothing about the status: any status gives the same refusal. */
  lemma OwnerCheckedFirst(user: UserData, a: Assignment, s: Status)
    requires a.ownerId != user.id
    ensures ReviewGate(user, a) == ReviewGate(user, a.(status := s)) == Some(Forbidden)
  {
  }

  // ---------------------------------------------------------------------------
  // The page state and its handlers

  datatype View = View(
    assignmentId: Option<string>,
    userData: Option<UserData>,
    assignment: Option<Assignment>,
    notes: string,
    loading: bool,
    error: Option<string>,
    message: Option<string>,
    isSubmitting: bool)

  /** What the fetch leaves: the state, the storage, whether it asked the backend, and the navigation. */
  datatype Loaded = Loaded(view: View, items: map<string, string>, requested: bool, navigation: Option<string>)

  /**
   * `fetchAssignmentAndUser`: parse the stored user (a failure removes it),
   * insist on a user with an id, then fetch and screen the assignment.
   * `parse` stands for `JSON.parse`.
   */
  function FetchAssignmentAndUser(v: View, items: map<string, string>, parse: string -> Option<UserData>,
                                  reply: FetchReply): (r: Loaded)
    ensures !r.view.loading && r.view.message.None?
    ensures r.view.assignmentId == v.assignmentId && r.view.notes == v.notes
    ensures Truthy(Browser.Get(items, Browser.UserDataKey)) && parse(items[Browser.UserDataKey]).None? ==>
      r.items == items - {Browser.UserDataKey} && r.view.error == Some(AuthError) && !r.requested &&
      r.navigation.None? && r.view.userData == v.userData
    ensures !(Truthy(Browser.Get(items, Browser.UserDataKey)) && parse(items[Browser.UserDataKey]).None?) ==>
      r.items == items
    ensures r.navigation.Some? <==>
      !Truthy(Browser.Get(items, Browser.UserDataKey)) ||
      (parse(items[Browser.UserDataKey]).Some? && !HasId(parse(items[Browser.UserDataKey]).value))
    ensures r.navigation.Some? ==> r.navigation == Some(App.LoginPath) && r.view.error == Some(LoginRequired)
    ensures r.requested <==>
      Truthy(Browser.Get(items, Browser.UserDataKey)) && parse(items[Browser.UserDataKey]).Some? &&
      HasId(parse(items[Browser.UserDataKey]).value)
    ensures r.requested ==> r.view.userData == parse(items[Browser.UserDataKey])
    ensures r.requested && reply.FetchFailed? ==> r.view.error == Some(MessageOr(reply.message, LoadDetailsFailed))
    ensures r.requested && reply.Fetched? && reply.assignment.None? ==> r.view.error == Some(LoadDetailsFailed)
    ensures r.requested && reply.Fetched? && reply.assignment.Some? ==>
      r.view.error == ReviewGate(r.view.userData.value, reply.assignment.value)
    ensures r.view.assignment != v.assignment ==>
      r.requested && reply.Fetched? && r.view.assignment == reply.assignment && r.view.error.None?
    ensures r.view.error.None? ==>
      r.requested && reply.Fetched? && r.view.assignment == reply.assignment && reply.assignment.Some? &&
      ReviewGate(r.view.userData.value, reply.assignment.value).None?
  {
    var v := v.(error := None, message := None);
    var stored := Browser.Get(items, Browser.UserDataKey);
    var current := if Truthy(stored) then parse(stored.value) else None;
    if Truthy(stored) && current.None? then
      Loaded(v.(error := Some(AuthError), loading := false), items - {Browser.UserDataKey}, false, None)
    else
      var v := if current.Some? then v.(userData := current) else v;
      if current.None? || !HasId(current.value) then
        Loaded(v.(error := Some(LoginRequired), loading := false), items, false, Some(App.LoginPath))
      else
        match reply
        case FetchFailed(msg) =>
          Loaded(v.(error := Some(MessageOr(msg, LoadDetailsFailed)), loading := false), items, true, None)
        case Fetched(None) =>
          Loaded(v.(error := Some(LoadDetailsFailed), loading := false), items, true, None)
        case Fetched(Some(a)) =>
          var gate := ReviewGate(current.value, a);
          if gate.Some? then Loaded(v.(error := gate, loading := false), items, true, None)
          else Loaded(v.(assignment := Some(a), loading := false), items, true, None)
  }

  /** Only the owner ever sees an assignment awaiting review on this page. */
  lemma ShownOnlyToOwner(v: View, items: map<string, string>, parse: string -> Option<UserData>, reply: FetchReply)
    requires FetchAssignmentAndUser(v, items, parse, reply).view.error.None?
    ensures FetchAssignmentAndUser(v, items, parse, reply).view.assignment.Some?
    ensures FetchAssignmentAndUser(v, items, parse, reply).view.assignment.value.ownerId ==
      FetchAssignmentAndUser(v, items, parse, reply).view.userData.value.id
    ensures FetchAssignmentAndUser(v, items, parse, reply).view.assignment.value.status == PendingClientReview
  {
  }

  /** The body of `POST /assignments/:id/review`. */
  datatype ReviewRequest = ReviewRequest(assignmentId: string, approved: bool, notes: string)

  datatype ReviewReply =
    | Reviewed(message: Option<string>)
    | ReviewRequestFailed(message: Option<string>)

  datatype Review = Review(view: View, sent: Option<ReviewRequest>, navigation: Option<string>)

  /** `handleReview`: without a user or an id nothing is sent; a success returns to `/`. */
  function HandleReview(v: View, approved: bool, reply: ReviewReply): (r: Review)
    ensures !r.view.isSubmitting && r.view.assignment == v.assignment && r.view.userData == v.userData
    ensures r.sent.Some? <==> v.userData.Some? && Truthy(v.assignmentId)
    ensures r.sent.Some? ==> r.sent.value == ReviewRequest(v.assignmentId.value, approved, v.notes)
    ensures r.sent.None? ==> r.view.error == Some(ReviewDataMissing) && r.view.message.None? && r.navigation.None?
    ensures r.navigation.Some? <==> r.sent.Some? && reply.Reviewed?
    ensures r.navigation.Some? ==> r.navigation == Some("/") && r.view.message == reply.message && r.view.error.None?
    ensures r.sent.Some? && reply.ReviewRequestFailed? ==>
      r.view.error == Some(MessageOr(reply.message, ReviewFailed)) && r.view.message.None?
  {
    var v := v.(error := None, message := None);
    if v.userData.None? || !Truthy(v.assignmentId) then
      Review(v.(error := Some(ReviewDataMissing), isSubmitting := false), None, None)
    else
      var sent := Some(ReviewRequest(v.assignmentId.value, approved, v.notes));
      match reply
      case Reviewed(msg) => Review(v.(message := msg, isSubmitting := false), sent, Some("/"))
      case ReviewRequestFailed(msg) =>
        Review(v.(error := Some(MessageOr(msg, ReviewFailed)), isSubmitting := false), sent, None)
  }

  class ReviewAssignmentPage {
    var assignmentId: Option<string>
    var userData: Option<UserData>
    var assignment: Option<Assignment>
    var notes: string
    var loading: bool
    var error: Option<string>
    var message: Option<string>
    var isSubmitting: bool

    /** The page for the route parameter `assignmentId`. */
    constructor (params: map<string, string>)
      ensures Current() == View(Browser.Get(params, "assignmentId"), None, None, "", true, None, None, false)
    {
      assignmentId := Browser.Get(params, "assignmentId");
      userData, assignment, notes := None, None, "";
      loading, error, message, isSubmitting := true, None, None, false;
    }

    function Current(): View
      reads this
    {
      View(assignmentId, userData, assignment, notes, loading, error, message, isSubmitting)
    }

    method Set(v: View)
      modifies this
      ensures Current() == v
    {
      assignmentId, userData, assignment, notes := v.assignmentId, v.userData, v.assignment, v.notes;
      loading, error, message, isSubmitting := v.loading, v.error, v.message, v.isSubmitting;
    }

    /** The mount effect. */
    method Load(storage: Browser.LocalStorage, parse: string -> Option<UserData>, reply: FetchReply)
      returns (requested: bool, navigation: Option<string>)
      modifies this, storage
      ensures Current() == FetchAssignmentAndUser(old(Current()), old(storage.items), parse, reply).view
      ensures storage.items == FetchAssignmentAndUser(old(Current()), old(storage.items), parse, reply).items
      ensures requested == FetchAssignmentAndUser(old(Current()), old(storage.items), parse, reply).requested
      ensures navigation == FetchAssignmentAndUser(old(Current()), old(storage.items), parse, reply).navigation
    {
      var r := FetchAssignmentAndUser(Current(), storage.items, parse, reply);
      if r.items != storage.items {
        storage.RemoveItem(Browser.UserDataKey);
      }
      Set(r.view);
      requested, navigation := r.requested, r.navigation;
    }

    /** The notes box. */
    method NotesChange(text: string)
      modifies this
      ensures Current() == old(Current()).(notes := text)
    {
      notes := text;
    }

    /** "Approve" (`approved` true) or "Request Revision" (false). */
    method ReviewClick(approved: bool, reply: ReviewReply) returns (sent: Option<ReviewRequest>, navigation: Option<string>)
      modifies this
      ensures Current() == HandleReview(old(Current()), approved, reply).view
      ensures sent == HandleReview(old(Current()), approved, reply).sent
      ensures navigation == HandleReview(old(Current()), approved, reply).navigation
    {
      var r := HandleReview(Current(), approved, reply);
      Set(r.view);
      sent, navigation := r.sent, r.navigation;
    }
  }
}
