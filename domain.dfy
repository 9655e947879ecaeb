/**
 * The records every page shares: assignment status, the cached user, the
 * assignment as the backend returns it, and the outcome of a page's access check.
 */
module Domain {
  import opened Wrappers
  import Text

  /** The eight assignment states the backend reports. */
  datatype Status =
    | Pending | Accepted | Due | Completed
    | PendingClientReview | ReadyForPayout | Paid | Cancelled

  /** The status as it travels in JSON. */
  function StatusName(s: Status): string
  {
    match s
    case Pending => "pending"
    case Accepted => "accepted"
    case Due => "due"
    case Completed => "completed"
    case PendingClientReview => "pending_client_review"
    case ReadyForPayout => "ready_for_payout"
    case Paid => "paid"
    case Cancelled => "cancelled"
  }

  /** Reads a wire status back; any other string is not a status. */
  function ParseStatus(raw: string): (r: Option<Status>)
    ensures r.Some? ==> StatusName(r.value) == raw
    ensures r.None? ==> forall s :: StatusName(s) != raw
  {
    if raw == "pending" then Some(Pending)
    else if raw == "accepted" then Some(Accepted)
    else if raw == "due" then Some(Due)
    else if raw == "completed" then Some(Completed)
    else if raw == "pending_client_review" then Some(PendingClientReview)
    else if raw == "ready_for_payout" then Some(ReadyForPayout)
    else if raw == "paid" then Some(Paid)
    else if raw == "cancelled" then Some(Cancelled)
    else None
  }

  /** Wire names round-trip, so no two statuses share one. */
  lemma StatusNameRoundTrip(s: Status)
    ensures ParseStatus(StatusName(s)) == Some(s)
  {
  }

  /** The label pages show for a status: `status.replace(/_/g, ' ').toUpperCase()`. */
  function StatusLabel(raw: string): (r: string)
    ensures |r| == |raw|
    ensures forall i :: 0 <= i < |raw| ==>
      r[i] == if raw[i] == '_' then ' ' else Text.UpperChar(raw[i])
  {
    Text.ToUpper(Text.ReplaceChar(raw, '_', ' '))
  }

  /** A label has no underscore and no lower-case letter left in it. */
  lemma StatusLabelShape(raw: string)
    ensures forall i :: 0 <= i < |raw| ==>
      StatusLabel(raw)[i] != '_' && !Text.IsLower(StatusLabel(raw)[i])
  {
  }

  const HelperRole: string := "helper"
  const ClientRole: string := "client"

  /** The cached identity: the fields of `UserData` the pages decide on. */
  datatype UserData = UserData(
    id: string,
    username: string,
    roles: seq<string>,
    isAdmin: bool,
    isActive: bool)

  predicate HasRole(u: UserData, role: string)
  {
    role in u.roles
  }

  /** `user._id` is truthy. */
  predicate HasId(u: UserData)
  {
    u.id != ""
  }

  /**
   * An assignment as the backend returns it. `ownerId` is the populated owner's
   * `_id`; `payout` is `adminDeterminedHelperPayout`, absent until an admin sets it.
   */
  datatype Assignment = Assignment(
    id: string,
    ownerId: string,
    helperId: Option<string>,
    title: string,
    category: string,
    status: Status,
    paymentAmount: real,
    payout: Option<real>,
    paidAt: Option<string>)

  /** What a page's mount-time check makes of the stored user. */
  datatype Access =
    | Granted(user: UserData)
    | Redirect(path: string)
    /** `JSON.parse` threw outside any `try`: the effect aborts, nothing else happens. */
    | ParseThrows

  /** The reply to `GET /assignments/:id`: a body whose `assignment` may be missing, or an error. */
  datatype FetchReply =
    | Fetched(assignment: Option<Assignment>)
    | FetchFailed(message: Option<string>)

  /**
   * axios's default `validateStatus`: only a 2xx answer resolves the request;
   * any other status rejects it, so the handler's `catch` runs instead.
   */
  predicate Resolves(status: int)
  {
    200 <= status < 300
  }
}
