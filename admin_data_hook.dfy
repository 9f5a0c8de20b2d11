/** The administrator's data hook: the member list, the dashboard statistics computed from the
    profiles and receipts tables, and the creation of notifications. Both tables are parameters
    given in the server's order; the month start is the local midnight of the first day of the
    current month, read from the clock. */
module AdminDataHook {
  import opened Outcomes
  import opened Text
  import opened Seqs
  import opened AuthContext
  import opened ReceiptsHook
  import opened JsMath
  import NotificationsHook

  datatype Member = Member(
    id: string,
    email: string,
    fullName: Option<string>,
    phone: Option<string>,
    role: Role,
    createdAt: int)

  datatype Stats = Stats(
    totalMembers: nat,
    activeMembers: nat,
    totalRevenue: int,
    newMembersThisMonth: nat,
    pendingPayments: nat)

  const InitialStats := Stats(0, 0, 0, 0, 0)

  predicate IsMember(m: Member)
  {
    m.role == AuthContext.Member
  }

  /** The members query: the profiles whose role is 'member'. */
  function Members(profiles: seq<Member>): (r: seq<Member>)
    ensures forall i :: 0 <= i < |r| ==> r[i] in profiles && r[i].role == AuthContext.Member
    ensures forall i :: 0 <= i < |profiles| && profiles[i].role == AuthContext.Member ==> profiles[i] in r
  {
    Filter(profiles, IsMember)
  }

  /** `Math.round(totalMembers * 0.8)`: an estimate that never exceeds the member count. */
  function ActiveMembers(totalMembers: nat): (a: nat)
    ensures a <= totalMembers
    ensures 10 * a - 5 <= 8 * totalMembers < 10 * a + 5
  {
    var a := Round(8 * totalMembers, 10);
    a
  }

  /** The members who joined at or after the start of the month. */
  function NewThisMonth(members: seq<Member>, monthStart: int): (r: seq<Member>)
    ensures |r| <= |members|
    ensures forall i :: 0 <= i < |r| ==> r[i] in members && r[i].createdAt >= monthStart
    ensures forall i :: 0 <= i < |members| && members[i].createdAt >= monthStart ==> members[i] in r
  {
    Filter(members, (m: Member) => m.createdAt >= monthStart)
  }

  predicate IsPending(r: Receipt)
  {
    r.status == Pending
  }

  /** The statistics the dashboard shows for a member list and the receipts table. */
  function ComputeStats(members: seq<Member>, receipts: seq<Receipt>, monthStart: int): (s: Stats)
    ensures s.totalMembers == |members|
    ensures s.activeMembers <= s.totalMembers && s.newMembersThisMonth <= s.totalMembers
    ensures s.newMembersThisMonth == |NewThisMonth(members, monthStart)|
    ensures s.totalRevenue == TotalPaid(receipts)
    ensures s.pendingPayments == |Filter(receipts, IsPending)|
  {
    Stats(|members|, ActiveMembers(|members|), TotalPaid(receipts),
          |NewThisMonth(members, monthStart)|, |Filter(receipts, IsPending)|)
  }

  /** A receipt is counted at most once, as revenue when paid or as pending, never both. */
  lemma {:induction false} PaidAndPendingAreDisjoint(receipts: seq<Receipt>)
    ensures |Filter(receipts, IsPaid)| + |Filter(receipts, IsPending)| <= |receipts|
  {
    if receipts != [] {
      assert receipts == [receipts[0]] + receipts[1..];
      FilterCons(receipts[0], receipts[1..], IsPaid);
      FilterCons(receipts[0], receipts[1..], IsPending);
      PaidAndPendingAreDisjoint(receipts[1..]);
    }
  }

  /** The hook's state. */
  class AdminData {
    var members: seq<Member>
    var stats: Stats
    var loading: bool
    var error: Option<string>

    constructor ()
      ensures members == [] && stats == InitialStats && loading && error == None
    {
      members := [];
      stats := InitialStats;
      loading := true;
      error := None;
    }

    /** `fetchData`. For a non-administrator (or without a client) only loading ends.
        Otherwise: a failed members query records its message and changes nothing else; a
        successful one installs the members, and then a failed receipts query records its
        message and leaves the statistics as they were, while a successful one replaces the
        statistics. Loading ends on every path. */
    method FetchData(hasClient: bool, isAdmin: bool, profiles: Outcome<seq<Member>>,
                     receipts: Outcome<seq<Receipt>>, monthStart: int)
      modifies this
      ensures !loading
      ensures !hasClient || !isAdmin ==>
                members == old(members) && stats == old(stats) && error == old(error)
      ensures hasClient && isAdmin && profiles.Err? ==>
                members == old(members) && stats == old(stats) && error == Some(profiles.message)
      ensures hasClient && isAdmin && profiles.Ok? ==> members == Members(profiles.value)
      ensures hasClient && isAdmin && profiles.Ok? && receipts.Err? ==>
                stats == old(stats) && error == Some(receipts.message)
      ensures hasClient && isAdmin && profiles.Ok? && receipts.Ok? ==>
                stats == ComputeStats(Members(profiles.value), receipts.value, monthStart) && error == None
    {
      if !hasClient || !isAdmin {
        loading := false;
        return;
      }
      loading := true;
      error := None;
      match profiles {
        case Err(message) =>
          error := Some(message);
        case Ok(rows) =>
          var fetched := Members(rows);
          members := fetched;
          match receipts {
            case Err(message) =>
              error := Some(message);
            case Ok(table) =>
              stats := ComputeStats(fetched, table, monthStart);
          }
      }
      loading := false;
    }
  }

  /** What `createNotification` is called with; user id, type and the global flag may be
      absent. */
  datatype NotificationRequest = NotificationRequest(
    userId: Option<string>,
    title: string,
    message: string,
    kind: Option<NotificationsHook.Kind>,
    isGlobal: Option<bool>)

  /** The row `createNotification` sends to the backend. */
  datatype NotificationInsert = NotificationInsert(
    userId: Option<string>,
    title: string,
    message: string,
    kind: NotificationsHook.Kind,
    isGlobal: bool,
    gymId: string)

  /** The inserted row: a missing or empty user id becomes null, the type defaults to 'info'
      and the global flag to false; title and message are copied. */
  function NewNotification(req: NotificationRequest): (ins: NotificationInsert)
    ensures ins.userId == OrNull(req.userId)
    ensures ins.title == req.title && ins.message == req.message
    ensures ins.kind == (if req.kind.Some? then req.kind.value else NotificationsHook.Info)
    ensures ins.isGlobal <==> req.isGlobal == Some(true)
    ensures ins.gymId == GymId
  {
    NotificationInsert(
      OrNull(req.userId), req.title, req.message,
      if req.kind.Some? then req.kind.value else NotificationsHook.Info,
      req.isGlobal.Some? && req.isGlobal.value,
      GymId)
  }

  /** `createNotification`: 'Not authorized' without a client or for a non-administrator,
      with nothing sent; otherwise `NewNotification(req)` is sent and the backend's answer
      (`inserted`) is passed back, an insert error as its message. */
  method CreateNotification(hasClient: bool, isAdmin: bool, req: NotificationRequest,
                            inserted: Outcome<NotificationsHook.Notification>)
    returns (result: Result<NotificationsHook.Notification>, sent: Option<NotificationInsert>)
    ensures !hasClient || !isAdmin ==> result == Failure("Not authorized") && sent == None
    ensures hasClient && isAdmin ==> sent == Some(NewNotification(req))
    ensures hasClient && isAdmin && inserted.Err? ==> result == Failure(inserted.message)
    ensures hasClient && isAdmin && inserted.Ok? ==> result == Success(inserted.value)
  {
    if !hasClient || !isAdmin {
      return Failure("Not authorized"), None;
    }
    sent := Some(NewNotification(req));
    match inserted {
      case Err(message) => result := Failure(message);
      case Ok(row) => result := Success(row);
    }
  }

  /** Who a created notification reaches through the member's fetch filter: a global one
      reaches everybody, one with a user id reaches that user, and one sent with neither a
      (non-empty) user id nor the global flag reaches no one. */
  lemma NotificationAudience(req: NotificationRequest, uid: string)
    ensures var ins := NewNotification(req);
            NotificationsHook.Addressed(ins.userId, ins.isGlobal, uid) <==>
              req.isGlobal == Some(true) || (req.userId == Some(uid) && uid != "")
  {
  }
}
