/**
 * The helper dashboard: the access check, the available list, the per-status
 * actions on the helper's own assignments, the status colours and the
 * submit-work form.
 */
module HelperDashboard {
  import opened Wrappers
  import opened Domain
  import Browser
  import Seqs
  import App

  // ---------------------------------------------------------------------------
  // Access

  /**
   * The mount effect: helpers and admins stay; anyone else, or no stored user,
   * is sent to the login page. The stored text is parsed outside any `try`.
   */
  function HelperAccess(items: map<string, string>, parse: string -> Option<UserData>): (r: Access)
    ensures !Truthy(Browser.Get(items, Browser.UserDataKey)) ==> r == Redirect(App.LoginPath)
    ensures r.ParseThrows? <==>
      Truthy(Browser.Get(items, Browser.UserDataKey)) && parse(items[Browser.UserDataKey]).None?
    ensures r.Granted? <==>
      Truthy(Browser.Get(items, Browser.UserDataKey)) && parse(items[Browser.UserDataKey]).Some? &&
      (HasRole(parse(items[Browser.UserDataKey]).value, HelperRole) || parse(items[Browser.UserDataKey]).value.isAdmin)
    ensures r.Granted? ==> parse(items[Browser.UserDataKey]) == Some(r.user)
    ensures r.Redirect? ==> r.path == App.LoginPath
  {
    var stored := Browser.Get(items, Browser.UserDataKey);
    if !Truthy(stored) then Redirect(App.LoginPath)
    else
      match parse(stored.value)
      case None => ParseThrows
      case Some(user) =>
        if !HasRole(user, HelperRole) && !user.isAdmin then Redirect(App.LoginPath) else Granted(user)
  }

  /**
   * The page lets admins in, but the router does not: an admin without the
   * helper role who is granted here still cannot reach the page's route.
   */
  lemma AdminWithoutHelperRoleIsRouted(items: map<string, string>, parse: string -> Option<UserData>, s: App.Session)
    requires HelperAccess(items, parse).Granted?
    requires s.isLoggedIn && s.user == Some(HelperAccess(items, parse).user)
    requires !HasRole(s.user.value, HelperRole)
    ensures s.user.value.isAdmin
    ensures App.Show(App.HelperDashboardPath, s) == App.LoginScreen
  {
  }

  // ---------------------------------------------------------------------------
  // The lists

  /** `a.helperId === null`. */
  function Unassigned(): Assignment -> bool
  {
    (a: Assignment) => a.helperId.None?
  }

  /** The available list: the fetched assignments nobody has taken, in their fetched order. */
  function Available(fetched: seq<Assignment>): (r: seq<Assignment>)
    ensures forall a :: a in r <==> a in fetched && a.helperId.None?
    ensures |r| <= |fetched|
  {
    Seqs.Filter(fetched, Unassigned())
  }

  /** Each unassigned assignment appears as often as it was fetched, every other one never. */
  lemma AvailableCounts(fetched: seq<Assignment>, a: Assignment)
    ensures multiset(Available(fetched))[a] == if a.helperId.None? then multiset(fetched)[a] else 0
  {
    Seqs.FilterCount(fetched, Unassigned(), a);
  }

  /** Filtering keeps the fetched order: two batches filter to the two filtered batches. */
  lemma AvailableKeepsOrder(first: seq<Assignment>, second: seq<Assignment>)
    ensures Available(first + second) == Available(first) + Available(second)
  {
    Seqs.FilterConcat(first, second, Unassigned());
  }

  /** A list the backend already restricted to unassigned work passes through unchanged. */
  lemma AvailableOfUnassigned(fetched: seq<Assignment>)
    requires forall a :: a in fetched ==> a.helperId.None?
    ensures Available(fetched) == fetched
  {
    Seqs.FilterAll(fetched, Unassigned());
  }

  /** What the action cell of one of the helper's own assignments shows. */
  datatype RowAction = SubmitWorkButton | AwaitingClientReview | ReadyForPayoutBadge | PaidBadge

  function MyAssignmentActions(s: Status): (r: seq<RowAction>)
    ensures SubmitWorkButton in r <==> s == Accepted || s == Due
    ensures AwaitingClientReview in r <==> s == PendingClientReview
    ensures ReadyForPayoutBadge in r <==> s == ReadyForPayout
    ensures PaidBadge in r <==> s == Paid
    ensures |r| <= 1
  {
    if s == Accepted || s == Due then [SubmitWorkButton]
    else if s == PendingClientReview then [AwaitingClientReview]
    else if s == ReadyForPayout then [ReadyForPayoutBadge]
    else if s == Paid then [PaidBadge]
    else []
  }

  // ---------------------------------------------------------------------------
  // Status colours

  /** The colour class of a known status. */
  function ColorOf(s: Status): string
  {
    match s
    case Pending => "text-yellow-500"
    case Accepted => "text-blue-500"
    case Due => "text-orange-500"
    case Completed => "text-purple-500"
    case PendingClientReview => "text-indigo-400"
    case ReadyForPayout => "text-green-500"
    case Paid => "text-discord_green"
    case Cancelled => "text-red-500"
  }

  const DefaultColor: string := "text-gray-500"

  /** `getStatusColor`: the class of the status the text names, grey for any other text. */
  function StatusColor(raw: string): (r: string)
    ensures ParseStatus(raw).None? ==> r == DefaultColor
    ensures ParseStatus(raw).Some? ==> r == ColorOf(ParseStatus(raw).value)
  {
    match ParseStatus(raw)
    case Some(s) => ColorOf(s)
    case None => DefaultColor
  }

  /** The eight statuses get eight different classes, none of them the grey of unknown text. */
  lemma StatusColorsDistinct(s: Status, t: Status)
    ensures StatusColor(StatusName(s)) == ColorOf(s)
    ensures s != t ==> StatusColor(StatusName(s)) != StatusColor(StatusName(t))
    ensures StatusColor(StatusName(s)) != DefaultColor
  {
    StatusNameRoundTrip(s);
    StatusNameRoundTrip(t);
  }

  // ---------------------------------------------------------------------------
  // Submitting work

  const SelectFiles: string := "Please select files to upload."
  const SubmitWorkFailed: string := "Failed to submit work."
  const AttachmentField: string := "completedWorkAttachments"

  /** One part of the multipart body: a field name and a file. */
  datatype FormEntry = FormEntry(name: string, file: string)

  /** The guard of `handleSubmitWork`: an assignment and a non-empty file list. */
  predicate SubmitWorkReady(selected: Option<Assignment>, files: Option<seq<string>>)
  {
    selected.Some? && files.Some? && |files.value| > 0
  }

  /** The modal's submit button is disabled while submitting, with no file list, or with an empty one. */
  predicate SubmitWorkDisabled(isSubmitting: bool, files: Option<seq<string>>)
  {
    isSubmitting || files.None? || |files.value| == 0
  }

  /** The modal only renders with an assignment selected, so an enabled button passes the guard. */
  lemma EnabledSubmitWorkPasses(selected: Option<Assignment>, isSubmitting: bool, files: Option<seq<string>>)
    requires selected.Some? && !SubmitWorkDisabled(isSubmitting, files)
    ensures SubmitWorkReady(selected, files)
  {
  }

  /** The `formData.append` loop: one attachment entry per file, in the files' order. */
  method BuildCompletedWorkForm(files: seq<string>) returns (form: seq<FormEntry>)
    ensures |form| == |files|
    ensures forall i :: 0 <= i < |files| ==> form[i] == FormEntry(AttachmentField, files[i])
  {
    form := [];
    var i := 0;
    while i < |files|
      invariant 0 <= i <= |files|
      invariant |form| == i
      invariant forall k :: 0 <= k < i ==> form[k] == FormEntry(AttachmentField, files[k])
    {
      form := form + [FormEntry(AttachmentField, files[i])];
      i := i + 1;
    }
  }

  /** The reply to `POST /assignments/:id/complete` or `/accept`. */
  datatype UpdateReply =
    | Updated(message: Option<string>)
    | UpdateFailed(message: Option<string>)

  /** The two list requests: the first may fail, or the second after the first succeeded. */
  datatype ListsReply =
    | BothLoaded(available: seq<Assignment>, mine: seq<Assignment>)
    | MineFailed(available: seq<Assignment>, message: Option<string>)
    | AvailableFailed(message: Option<string>)

  // ---------------------------------------------------------------------------
  // The page state

  class HelperDashboardPage {
    var userData: Option<UserData>
    var availableAssignments: seq<Assignment>
    var myAssignments: seq<Assignment>
    var loading: bool
    var error: Option<string>
    var acceptMessage: Option<string>
    var acceptError: Option<string>
    var isAccepting: bool
    var showSubmitWorkModal: bool
    var selectedAssignmentToComplete: Option<Assignment>
    var completedWorkFiles: Option<seq<string>>
    var isSubmittingWork: bool
    var submitWorkMessage: Option<string>
    var submitWorkError: Option<string>

    constructor ()
      ensures userData.None? && availableAssignments == [] && myAssignments == [] && loading && error.None?
      ensures acceptMessage.None? && acceptError.None? && !isAccepting
      ensures !showSubmitWorkModal && selectedAssignmentToComplete.None? && completedWorkFiles.None?
      ensures !isSubmittingWork && submitWorkMessage.None? && submitWorkError.None?
    {
      userData, availableAssignments, myAssignments, loading, error := None, [], [], true, None;
      acceptMessage, acceptError, isAccepting := None, None, false;
      showSubmitWorkModal, selectedAssignmentToComplete, completedWorkFiles := false, None, None;
      isSubmittingWork, submitWorkMessage, submitWorkError := false, None, None;
    }

    /** The mount effect; `parse` stands for `JSON.parse`. Returns whether the lists are fetched. */
    method Mount(items: map<string, string>, parse: string -> Option<UserData>)
      returns (fetch: bool, navigation: Option<string>)
      modifies this`userData
      ensures fetch <==> HelperAccess(items, parse).Granted?
      ensures fetch ==> userData == Some(HelperAccess(items, parse).user) && navigation.None?
      ensures !fetch ==> userData == old(userData)
      ensures HelperAccess(items, parse).Redirect? ==> navigation == Some(App.LoginPath)
      ensures HelperAccess(items, parse).ParseThrows? ==> navigation.None?
      ensures availableAssignments == old(availableAssignments) && myAssignments == old(myAssignments)
    {
      fetch, navigation := false, None;
      var access := HelperAccess(items, parse);
      match access {
      case Granted(user) => userData, fetch := Some(user), true;
      case Redirect(path) => navigation := Some(path);
      case ParseThrows =>
      }
    }

    /** `fetchAssignments`: the available list goes through the unassigned filter. */
    method FetchAssignments(reply: ListsReply)
      modifies this`availableAssignments, this`myAssignments, this`loading, this`error
      ensures !loading
      ensures reply.BothLoaded? ==>
        availableAssignments == Available(reply.available) && myAssignments == reply.mine && error.None?
      ensures reply.MineFailed? ==>
        availableAssignments == Available(reply.available) && myAssignments == old(myAssignments) &&
        error == Some(MessageOr(reply.message, "Failed to load assignments."))
      ensures reply.AvailableFailed? ==>
        availableAssignments == old(availableAssignments) && myAssignments == old(myAssignments) &&
        error == Some(MessageOr(reply.message, "Failed to load assignments."))
      ensures userData == old(userData)
    {
      loading, error := true, None;
      match reply {
      case BothLoaded(available, mine) =>
        availableAssignments, myAssignments := Available(available), mine;
      case MineFailed(available, msg) =>
        availableAssignments := Available(available);
        error := Some(MessageOr(msg, "Failed to load assignments."));
      case AvailableFailed(msg) =>
        error := Some(MessageOr(msg, "Failed to load assignments."));
      }
      loading := false;
    }

    /** `handleAcceptAssignment` on a row of the available list. */
    method AcceptClick(assignmentId: string, reply: UpdateReply) returns (sent: string, refresh: bool)
      modifies this`acceptMessage, this`acceptError, this`isAccepting
      ensures sent == assignmentId && !isAccepting
      ensures refresh <==> reply.Updated?
      ensures reply.Updated? ==> acceptMessage == reply.message && acceptError.None?
      ensures reply.UpdateFailed? ==>
        acceptMessage.None? && acceptError == Some(MessageOr(reply.message, "Failed to accept assignment."))
      ensures availableAssignments == old(availableAssignments) && myAssignments == old(myAssignments)
    {
      isAccepting, acceptMessage, acceptError := true, None, None;
      sent := assignmentId;
      match reply {
      case Updated(msg) => acceptMessage, refresh := msg, true;
      case UpdateFailed(msg) =>
        acceptError, refresh := Some(MessageOr(msg, "Failed to accept assignment.")), false;
      }
      isAccepting := false;
    }

    /** `handleOpenSubmitWorkModal`: a fresh modal for the chosen assignment. */
    method OpenSubmitWork(a: Assignment)
      modifies this`selectedAssignmentToComplete, this`completedWorkFiles, this`submitWorkMessage,
        this`submitWorkError, this`showSubmitWorkModal
      ensures selectedAssignmentToComplete == Some(a) && completedWorkFiles.None? && showSubmitWorkModal
      ensures submitWorkMessage.None? && submitWorkError.None? && isSubmittingWork == old(isSubmittingWork)
    {
      selectedAssignmentToComplete, completedWorkFiles := Some(a), None;
      submitWorkMessage, submitWorkError, showSubmitWorkModal := None, None, true;
    }

    /** `handleFileChange`: a chosen file list replaces the previous one. */
    method FileChange(files: Option<seq<string>>)
      modifies this`completedWorkFiles
      ensures files.Some? ==> completedWorkFiles == files
      ensures files.None? ==> completedWorkFiles == old(completedWorkFiles)
      ensures selectedAssignmentToComplete == old(selectedAssignmentToComplete)
    {
      if files.Some? {
        completedWorkFiles := files;
      }
    }

    /** Whether the modal's submit button is disabled. */
    function SubmitButtonDisabled(): (r: bool)
      reads this
      ensures !r && selectedAssignmentToComplete.Some? ==>
        SubmitWorkReady(selectedAssignmentToComplete, completedWorkFiles)
    {
      SubmitWorkDisabled(isSubmittingWork, completedWorkFiles)
    }

    /**
     * `handleSubmitWork`: refuse without an assignment or files; otherwise post
     * one attachment per file and close the modal on success.
     */
    method SubmitWork(reply: UpdateReply) returns (sent: Option<(string, seq<FormEntry>)>)
      modifies this`isSubmittingWork, this`submitWorkMessage, this`submitWorkError, this`showSubmitWorkModal
      ensures !SubmitWorkReady(old(selectedAssignmentToComplete), old(completedWorkFiles)) ==>
        sent.None? && submitWorkError == Some(SelectFiles) && submitWorkMessage == old(submitWorkMessage) &&
        showSubmitWorkModal == old(showSubmitWorkModal) && isSubmittingWork == old(isSubmittingWork)
      ensures SubmitWorkReady(old(selectedAssignmentToComplete), old(completedWorkFiles)) ==>
        sent.Some? && sent.value.0 == old(selectedAssignmentToComplete).value.id && !isSubmittingWork &&
        |sent.value.1| == |old(completedWorkFiles).value| &&
        forall i :: 0 <= i < |sent.value.1| ==> sent.value.1[i] == FormEntry(AttachmentField, old(completedWorkFiles).value[i])
      ensures sent.Some? && reply.Updated? ==>
        submitWorkMessage == reply.message && submitWorkError.None? && !showSubmitWorkModal
      ensures sent.Some? && reply.UpdateFailed? ==>
        submitWorkMessage.None? && submitWorkError == Some(MessageOr(reply.message, SubmitWorkFailed)) &&
        showSubmitWorkModal == old(showSubmitWorkModal)
      ensures selectedAssignmentToComplete == old(selectedAssignmentToComplete)
      ensures completedWorkFiles == old(completedWorkFiles)
    {
      if !SubmitWorkReady(selectedAssignmentToComplete, completedWorkFiles) {
        submitWorkError := Some(SelectFiles);
        return None;
      }
      isSubmittingWork, submitWorkMessage, submitWorkError := true, None, None;
      var form := BuildCompletedWorkForm(completedWorkFiles.value);
      sent := Some((selectedAssignmentToComplete.value.id, form));
      match reply {
      case Updated(msg) => submitWorkMessage, showSubmitWorkModal := msg, false;
      case UpdateFailed(msg) => submitWorkError := Some(MessageOr(msg, SubmitWorkFailed));
      }
      isSubmittingWork := false;
    }
  }
}
