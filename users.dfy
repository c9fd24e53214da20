/** The users screen: the queue of forgotten-password requests. Each row
    shows how long the request has waited; once thirty minutes have passed
    the row reads "Approved", before that it offers an Approve button, and a
    successful approval takes the user off the list. The clock and the
    instant `requestedAt` denotes are integer milliseconds. */
module Users {
  import opened Wrappers
  import opened Lists

  datatype ResetStatus = Pending | Approved

  datatype ForgotPassword = ForgotPassword(status: ResetStatus, requestedAt: int)

  datatype User = User(id: string, name: string, email: string, role: string,
                       forgotPassword: ForgotPassword)

  /** What the Action cell of a row shows. */
  datatype RowAction = ApprovedLabel | ApproveButton

  const MsPerMinute: int := 60000
  const AutoApproveMinutes: int := 30

  /** `Math.floor((now - requestedAt) / 60000)`: whole minutes waited,
      rounded down, negative for a request stamped in the future. */
  function WaitingMinutes(now: int, requestedAt: int): (m: int)
    ensures m * MsPerMinute <= now - requestedAt < (m + 1) * MsPerMinute
  {
    (now - requestedAt) / MsPerMinute
  }

  function ActionFor(u: User, now: int): RowAction {
    if WaitingMinutes(now, u.forgotPassword.requestedAt) >= AutoApproveMinutes
    then ApprovedLabel else ApproveButton
  }

  /** The minute count is the floor of the elapsed time: the unique whole
      number of minutes that fits. */
  lemma WaitingMinutesUnique(now: int, requestedAt: int, m: int)
    requires m * 60000 <= now - requestedAt < (m + 1) * 60000
    ensures WaitingMinutes(now, requestedAt) == m
  {
  }

  /** The waiting time never goes down as the clock moves forward. */
  lemma WaitingMinutesMonotone(now: int, later: int, requestedAt: int)
    requires now <= later
    ensures WaitingMinutes(now, requestedAt) <= WaitingMinutes(later, requestedAt)
  {
  }

  /** The label replaces the button exactly when thirty full minutes, that
      is 1,800,000 ms, have passed since the request. */
  lemma ApprovedLabelIff(u: User, now: int)
    ensures ActionFor(u, now) == ApprovedLabel <==> now - u.forgotPassword.requestedAt >= 1800000
  {
  }

  /** `prev.filter(u => u._id !== userId)`. */
  function RemoveUser(users: seq<User>, userId: string): (r: seq<User>)
    ensures |r| <= |users|
  {
    Filter(users, (u: User) => u.id != userId)
  }

  /** A successful approval drops exactly that user and keeps every other
      entry, as often as it was listed, in its order. */
  lemma RemoveUserSpec(users: seq<User>, userId: string, u: User)
    ensures IsSubsequence(RemoveUser(users, userId), users)
    ensures u in RemoveUser(users, userId) <==> u in users && u.id != userId
    ensures multiset(RemoveUser(users, userId))[u] == if u.id != userId then multiset(users)[u] else 0
  {
    var keep := (u: User) => u.id != userId;
    FilterIsSubsequence(users, keep);
    FilterMultiset(users, keep, u);
    if u in RemoveUser(users, userId) {
      FilterSound(users, keep, u);
    }
    if u in users && u.id != userId {
      FilterComplete(users, keep, u);
    }
  }

  class AdminUsers {
    var users: seq<User>

    constructor ()
      ensures users == []
    {
      users := [];
    }

    /** `fetchUsers`: the response replaces the list; a failed request
        leaves it as it was. */
    method FetchUsers(response: Option<seq<User>>)
      modifies this
      ensures users == if response.Some? then response.value else old(users)
    {
      if response.Some? {
        users := response.value;
      }
    }

    /** `handleApproveRequest`. */
    method HandleApproveRequest(userId: string, serviceOk: bool)
      modifies this
      ensures users == if serviceOk then RemoveUser(old(users), userId) else old(users)
    {
      if serviceOk {
        users := RemoveUser(users, userId);
      }
    }
  }
}
