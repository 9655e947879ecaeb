/**
 * The admin's pay-helper page: the fetch with its status check, the
 * transaction-id check, the local "paid" update and what the page shows.
 */
module PayHelper {
  import opened Wrappers
  import opened Domain
  import Text
  import Browser

  const IdMissing: string := "Assignment ID is missing."
  const NotFound: string := "Assignment not found."
  const LoadFailed: string := "Failed to load assignment details."
  const IdMissingForPayout: string := "Assignment ID is missing for payout."
  const TransactionRequired: string := "Transaction ID is required."
  const PayoutRecorded: string := "Payout recorded successfully! Assignment marked as paid."
  const RecordFailed: string := "Failed to record payout."
  const PayoutError: string := "An error occurred while processing payout."

  /** The warning for an assignment that is not ready for payout, naming its status. */
  function NotReady(s: Status): string
  {
    "This assignment is not ready for payout. Current status: " + StatusLabel(StatusName(s)) + "."
  }

  // ---------------------------------------------------------------------------
  // Transaction id

  /** `transactionId.trim()` is truthy. */
  predicate TransactionIdValid(t: string)
  {
    Text.Trim(t) != ""
  }

  /** An id made only of white space is refused like an empty one; one visible character is enough. */
  lemma TransactionIdValidIff(t: string)
    ensures TransactionIdValid(t) <==> exists i :: 0 <= i < |t| && !Text.IsJsSpace(t[i])
  {
    Text.TrimEmptyIff(t);
  }

  /** The "Mark as Paid" button is disabled while submitting or for a blank transaction id. */
  predicate PaySubmitDisabled(isSubmitting: bool, transactionId: string)
  {
    isSubmitting || !TransactionIdValid(transactionId)
  }

  // ---------------------------------------------------------------------------
  // The local paid update

  /** The one status change the client makes itself: paid, stamped with `now`. */
  function MarkPaid(a: Assignment, now: string): (r: Assignment)
    ensures r.status == Paid && r.paidAt == Some(now)
    ensures r.id == a.id && r.ownerId == a.ownerId && r.helperId == a.helperId && r.title == a.title
    ensures r.category == a.category && r.paymentAmount == a.paymentAmount && r.payout == a.payout
  {
    a.(status := Paid, paidAt := Some(now))
  }

  /** Marking paid changes exactly the status and the time stamp. */
  lemma MarkPaidOnlyStatusAndTime(a: Assignment, now: string)
    ensures MarkPaid(a, now).(status := a.status, paidAt := a.paidAt) == a
    ensures MarkPaid(MarkPaid(a, now), now) == MarkPaid(a, now)
  {
  }

  // ---------------------------------------------------------------------------
  // The page state

  datatype View = View(
    assignmentId: Option<string>,
    assignment: Option<Assignment>,
    loading: bool,
    error: Option<string>,
    transactionId: string,
    notes: string,
    isSubmitting: bool,
    successMessage: Option<string>)

  /** The full-page error replaces the page only when no assignment is loaded. */
  predicate ShowFullPageError(v: View)
  {
    !v.loading && Truthy(v.error) && v.assignment.None?
  }

  /** The payout form is offered only for a loaded assignment that is ready for payout. */
  predicate ShowPayoutForm(v: View)
  {
    !v.loading && !ShowFullPageError(v) && v.assignment.Some? && v.assignment.value.status == ReadyForPayout
  }

  /** The "already paid" notice only for a paid one. */
  predicate ShowPaidNotice(v: View)
  {
    !v.loading && !ShowFullPageError(v) && v.assignment.Some? && v.assignment.value.status == Paid
  }

  /** The page never shows both the form and the notice. */
  lemma FormAndNoticeExclusive(v: View)
    ensures !(ShowPayoutForm(v) && ShowPaidNotice(v))
    ensures ShowPayoutForm(v) || ShowPaidNotice(v) ==> v.assignment.Some? && !ShowFullPageError(v)
  {
  }

  /** What the fetch leaves, and whether it asked the backend. */
  datatype Loaded = Loaded(view: View, requested: bool)

  /**
   * `fetchAssignmentDetails`: a loaded assignment is kept even when it is not
   * ready for payout; that only sets a warning.
   */
  function FetchDetails(v: View, reply: FetchReply): (r: Loaded)
    ensures !r.view.loading
    ensures r.view.transactionId == v.transactionId && r.view.notes == v.notes
    ensures r.view.assignmentId == v.assignmentId
    ensures r.requested <==> Truthy(v.assignmentId)
    ensures !r.requested ==> r.view.error == Some(IdMissing) && r.view.assignment == v.assignment
    ensures r.requested && reply.Fetched? && reply.assignment.Some? ==>
      r.view.assignment == reply.assignment &&
      (r.view.error.None? <==> reply.assignment.value.status == ReadyForPayout) &&
      (r.view.error.Some? ==> r.view.error == Some(NotReady(reply.assignment.value.status)))
    ensures r.requested && reply.Fetched? && reply.assignment.None? ==>
      r.view.error == Some(NotFound) && r.view.assignment == v.assignment
    ensures r.requested && reply.FetchFailed? ==>
      r.view.error == Some(MessageOr(reply.message, LoadFailed)) && r.view.assignment == v.assignment
  {
    if !Truthy(v.assignmentId) then Loaded(v.(error := Some(IdMissing), loading := false), false)
    else
      var v := v.(error := None);
      match reply
      case Fetched(Some(a)) =>
        var warning := if a.status != ReadyForPayout then Some(NotReady(a.status)) else None;
        Loaded(v.(assignment := Some(a), error := warning, loading := false), true)
      case Fetched(None) => Loaded(v.(error := Some(NotFound), loading := false), true)
      case FetchFailed(msg) => Loaded(v.(error := Some(MessageOr(msg, LoadFailed)), loading := false), true)
  }

  /** A fetched assignment in the wrong state still shows, with the warning, and never the full-page error. */
  lemma WrongStatusKeepsPage(v: View, reply: FetchReply)
    requires Truthy(v.assignmentId) && reply.Fetched? && reply.assignment.Some?
    requires reply.assignment.value.status != ReadyForPayout
    ensures !ShowFullPageError(FetchDetails(v, reply).view)
    ensures !ShowPayoutForm(FetchDetails(v, reply).view)
    ensures FetchDetails(v, reply).view.error == Some(NotReady(reply.assignment.value.status))
  {
  }

  /** On a fresh page the full-page error is exactly a failed load. */
  lemma FullPageErrorIffNothingLoaded(v: View, reply: FetchReply)
    requires v.assignment.None?
    ensures ShowFullPageError(FetchDetails(v, reply).view) <==>
      !Truthy(v.assignmentId) || !(reply.Fetched? && reply.assignment.Some?)
  {
    var r := FetchDetails(v, reply).view;
    if Truthy(v.assignmentId) && reply.FetchFailed? {
      assert r.error == Some(MessageOr(reply.message, LoadFailed));
      assert LoadFailed != "";
    }
  }

  /** The body of `POST /admin/assignments/:id/pay`. */
  datatype PayRequest = PayRequest(assignmentId: string, transactionId: string, notes: string)

  /** The reply to the payout request: an HTTP answer with its status, or a request that never got one. */
  datatype PayReply =
    | PayResponded(status: int, message: Option<string>)
    | PayRequestFailed(message: Option<string>)

  datatype Payout = Payout(view: View, sent: Option<PayRequest>)

  /**
   * `handlePayout`: the id and transaction-id checks, then the request. A 200
   * marks the loaded assignment paid at `now` and clears the inputs; any other
   * outcome leaves the assignment and the inputs as they were.
   */
  function HandlePayout(v: View, reply: PayReply, now: string): (r: Payout)
    ensures !r.view.isSubmitting && r.view.assignmentId == v.assignmentId && r.view.loading == v.loading
    ensures r.sent.Some? <==> Truthy(v.assignmentId) && TransactionIdValid(v.transactionId)
    ensures r.sent.Some? ==> r.sent.value == PayRequest(v.assignmentId.value, v.transactionId, v.notes)
    ensures !Truthy(v.assignmentId) ==> r.view.error == Some(IdMissingForPayout)
    ensures Truthy(v.assignmentId) && !TransactionIdValid(v.transactionId) ==> r.view.error == Some(TransactionRequired)
    ensures r.sent.Some? && reply.PayResponded? && reply.status == 200 ==>
      r.view.successMessage == Some(PayoutRecorded) && r.view.error.None? &&
      r.view.transactionId == "" && r.view.notes == "" &&
      (v.assignment.Some? ==> r.view.assignment == Some(MarkPaid(v.assignment.value, now))) &&
      (v.assignment.None? ==> r.view.assignment.None?)
    ensures !(r.sent.Some? && reply.PayResponded? && reply.status == 200) ==>
      r.view.assignment == v.assignment && r.view.transactionId == v.transactionId && r.view.notes == v.notes &&
      r.view.successMessage.None? && r.view.error.Some?
    ensures r.sent.Some? && reply.PayResponded? && Resolves(reply.status) && reply.status != 200 ==>
      r.view.error == Some(MessageOr(reply.message, RecordFailed))
    ensures r.sent.Some? && (reply.PayRequestFailed? || !Resolves(reply.status)) ==>
      r.view.error == Some(MessageOr(reply.message, PayoutError))
  {
    var v := v.(successMessage := None, error := None);
    if !Truthy(v.assignmentId) then Payout(v.(error := Some(IdMissingForPayout), isSubmitting := false), None)
    else if !TransactionIdValid(v.transactionId) then
      Payout(v.(error := Some(TransactionRequired), isSubmitting := false), None)
    else
      var sent := Some(PayRequest(v.assignmentId.value, v.transactionId, v.notes));
      match reply
      case PayResponded(status, msg) =>
        if !Resolves(status) then Payout(v.(error := Some(MessageOr(msg, PayoutError)), isSubmitting := false), sent)
        else if status == 200 then
          var marked := if v.assignment.Some? then Some(MarkPaid(v.assignment.value, now)) else None;
          Payout(v.(successMessage := Some(PayoutRecorded), assignment := marked, transactionId := "", notes := "",
                  isSubmitting := false), sent)
        else Payout(v.(error := Some(MessageOr(msg, RecordFailed)), isSubmitting := false), sent)
      case PayRequestFailed(msg) => Payout(v.(error := Some(MessageOr(msg, PayoutError)), isSubmitting := false), sent)
  }

  /** A recorded payout hides the form and shows the "already paid" notice instead. */
  lemma PaidHidesForm(v: View, reply: PayReply, now: string)
    requires !v.loading && ShowPayoutForm(v)
    requires HandlePayout(v, reply, now).sent.Some? && reply.PayResponded? && reply.status == 200
    ensures !ShowPayoutForm(HandlePayout(v, reply, now).view)
    ensures ShowPaidNotice(HandlePayout(v, reply, now).view)
    ensures HandlePayout(v, reply, now).view.assignment.value.paidAt == Some(now)
  {
  }

  /** An enabled "Mark as Paid" button on a page with an id always sends the request. */
  lemma EnabledPaySends(v: View, reply: PayReply, now: string)
    requires Truthy(v.assignmentId) && !PaySubmitDisabled(v.isSubmitting, v.transactionId)
    ensures HandlePayout(v, reply, now).sent == Some(PayRequest(v.assignmentId.value, v.transactionId, v.notes))
  {
  }

  class PayHelperPage {
    var assignmentId: Option<string>
    var assignment: Option<Assignment>
    var loading: bool
    var error: Option<string>
    var transactionId: string
    var notes: string
    var isSubmitting: bool
    var successMessage: Option<string>

    /** The page for the route parameter `assignmentId`. */
    constructor (params: map<string, string>)
      ensures Current() == View(Browser.Get(params, "assignmentId"), None, true, None, "", "", false, None)
    {
      assignmentId := Browser.Get(params, "assignmentId");
      assignment, loading, error := None, true, None;
      transactionId, notes, isSubmitting, successMessage := "", "", false, None;
    }

    function Current(): View
      reads this
    {
      View(assignmentId, assignment, loading, error, transactionId, notes, isSubmitting, successMessage)
    }

    method Set(v: View)
      modifies this
      ensures Current() == v
    {
      assignmentId, assignment, loading, error := v.assignmentId, v.assignment, v.loading, v.error;
      transactionId, notes, isSubmitting, successMessage := v.transactionId, v.notes, v.isSubmitting, v.successMessage;
    }

    /** The mount effect. */
    method Load(reply: FetchReply) returns (requested: bool)
      modifies this
      ensures Current() == FetchDetails(old(Current()), reply).view
      ensures requested == FetchDetails(old(Current()), reply).requested
    {
      var r := FetchDetails(Current(), reply);
      Set(r.view);
      requested := r.requested;
    }

    method TransactionIdChange(text: string)
      modifies this
      ensures Current() == old(Current()).(transactionId := text)
    {
      transactionId := text;
    }

    method NotesChange(text: string)
      modifies this
      ensures Current() == old(Current()).(notes := text)
    {
      notes := text;
    }

    /** "Mark as Paid"; `now` is the clock reading `new Date().toISOString()` takes. */
    method MarkAsPaid(reply: PayReply, now: string) returns (sent: Option<PayRequest>)
      modifies this
      ensures Current() == HandlePayout(old(Current()), reply, now).view
      ensures sent == HandlePayout(old(Current()), reply, now).sent
    {
      var r := HandlePayout(Current(), reply, now);
      Set(r.view);
      sent := r.sent;
    }
  }
}
