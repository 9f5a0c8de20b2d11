/** The notifications hook: the list a member sees, kept up to date by fetches, real-time
    inserts and the two mark-as-read operations, and the unread count derived from it. The
    backend's table is a parameter given in the server's order (newest first). */
module NotificationsHook {
  import opened Outcomes
  import opened Seqs

  datatype Kind = Info | Success | Warning | Error

  datatype Notification = Notification(
    id: string,
    userId: Option<string>,
    title: string,
    message: string,
    kind: Kind,
    isRead: bool,
    isGlobal: bool,
    link: Option<string>,
    createdAt: int)

  /** A row with these addressing fields matches the fetch filter `user_id = uid or is_global`. */
  predicate Addressed(userId: Option<string>, isGlobal: bool, uid: string)
  {
    userId == Some(uid) || isGlobal
  }

  predicate VisibleTo(n: Notification, uid: string)
  {
    Addressed(n.userId, n.isGlobal, uid)
  }

  const FetchLimit := 20

  /** The rows the filter `user_id = uid or is_global` keeps, in the table's order. */
  function Addressees(table: seq<Notification>, uid: string): seq<Notification>
  {
    Filter(table, (n: Notification) => VisibleTo(n, uid))
  }

  /** The fetch query: the first twenty (in the table's order, newest first) of the rows
      addressed to `uid` or global, or all of them when there are fewer. */
  function Select(table: seq<Notification>, uid: string): (r: seq<Notification>)
    ensures |r| == if |Addressees(table, uid)| <= FetchLimit then |Addressees(table, uid)| else FetchLimit
    ensures r == Addressees(table, uid)[..|r|]
    ensures forall i :: 0 <= i < |r| ==> r[i] in table && VisibleTo(r[i], uid)
    ensures |Addressees(table, uid)| <= FetchLimit ==>
              forall i :: 0 <= i < |table| && VisibleTo(table[i], uid) ==> table[i] in r
  {
    var visible := Addressees(table, uid);
    if |visible| <= FetchLimit then visible else visible[..FetchLimit]
  }

  /** The real-time insert agrees with a refetch: after a row addressed to the user is put
      in front of the table, the query returns a prefix of that row followed by what it
      returned before; a row addressed to someone else changes nothing. */
  lemma SelectAfterInsert(n: Notification, table: seq<Notification>, uid: string)
    ensures VisibleTo(n, uid) ==>
              var r := Select([n] + table, uid);
              |r| <= 1 + |Select(table, uid)| && r == ([n] + Select(table, uid))[..|r|]
    ensures !VisibleTo(n, uid) ==> Select([n] + table, uid) == Select(table, uid)
  {
    var p := (x: Notification) => VisibleTo(x, uid);
    FilterCons(n, table, p);
    var a := Addressees(table, uid);
    if VisibleTo(n, uid) {
      assert Addressees([n] + table, uid) == [n] + a;
      var r := Select([n] + table, uid);
      var before := Select(table, uid);
      assert r == ([n] + a)[..|r|];
      assert |r| <= 1 + |before|;
      assert forall i :: 0 <= i < |r| ==> r[i] == ([n] + before)[i];
    } else {
      assert Addressees([n] + table, uid) == a;
    }
  }

  predicate IsUnread(n: Notification)
  {
    !n.isRead
  }

  /** `notifications.filter(n => !n.is_read).length`. */
  function UnreadCount(ns: seq<Notification>): (c: nat)
    ensures c <= |ns|
    ensures c == 0 <==> forall i :: 0 <= i < |ns| ==> ns[i].isRead
  {
    var unread := Filter(ns, IsUnread);
    assert unread != [] ==> IsUnread(unread[0]);
    |unread|
  }

  /** A notification placed in front adds one to the count exactly when it is unread. */
  lemma UnreadCountPrepend(n: Notification, ns: seq<Notification>)
    ensures UnreadCount([n] + ns) == UnreadCount(ns) + (if n.isRead then 0 else 1)
  {
    FilterCons(n, ns, IsUnread);
  }

  /** The local effect of a successful `markAsRead(id)`: every notification with that id is
      read and every other one is unchanged. */
  function MarkedRead(ns: seq<Notification>, id: string): (r: seq<Notification>)
    ensures |r| == |ns|
    ensures forall i :: 0 <= i < |ns| ==>
              r[i] == if ns[i].id == id then ns[i].(isRead := true) else ns[i]
  {
    if ns == [] then []
    else [if ns[0].id == id then ns[0].(isRead := true) else ns[0]] + MarkedRead(ns[1..], id)
  }

  /** Marking the same notification read twice is the same as marking it once. */
  lemma MarkedReadIdempotent(ns: seq<Notification>, id: string)
    ensures MarkedRead(MarkedRead(ns, id), id) == MarkedRead(ns, id)
  {
  }

  /** The unread notifications carrying `id`. */
  function UnreadWithId(ns: seq<Notification>, id: string): nat
  {
    |Filter(ns, (n: Notification) => n.id == id && !n.isRead)|
  }

  /** Marking `id` read lowers the count by exactly the number of unread notifications with
      that id. */
  lemma {:induction false} MarkedReadUnreadCount(ns: seq<Notification>, id: string)
    ensures UnreadCount(MarkedRead(ns, id)) + UnreadWithId(ns, id) == UnreadCount(ns)
  {
    if ns != [] {
      var r := MarkedRead(ns, id);
      assert r == [r[0]] + MarkedRead(ns[1..], id);
      assert ns == [ns[0]] + ns[1..];
      FilterCons(r[0], MarkedRead(ns[1..], id), IsUnread);
      FilterCons(ns[0], ns[1..], IsUnread);
      FilterCons(ns[0], ns[1..], (n: Notification) => n.id == id && !n.isRead);
      MarkedReadUnreadCount(ns[1..], id);
    }
  }

  /** The local effect of a successful `markAllAsRead`: every notification, the global ones
      included, is read, and nothing else about them changes. */
  function AllMarkedRead(ns: seq<Notification>): (r: seq<Notification>)
    ensures |r| == |ns|
    ensures forall i :: 0 <= i < |ns| ==> r[i] == ns[i].(isRead := true)
  {
    if ns == [] then [] else [ns[0].(isRead := true)] + AllMarkedRead(ns[1..])
  }

  /** The server side of `markAllAsRead`: only the member's own unread rows are updated. */
  function ServerMarkAllRead(table: seq<Notification>, uid: string): (r: seq<Notification>)
    ensures |r| == |table|
    ensures forall i :: 0 <= i < |table| ==>
              r[i] == if table[i].userId == Some(uid) then table[i].(isRead := true) else table[i]
  {
    if table == [] then []
    else [if table[0].userId == Some(uid) then table[0].(isRead := true) else table[0]]
         + ServerMarkAllRead(table[1..], uid)
  }

  /** After "mark all as read" the local list has no unread notification, yet an unread global
      notification stays unread in the table, so the next fetch brings it back unread. */
  lemma MarkAllDivergesOnGlobal(ns: seq<Notification>, table: seq<Notification>, uid: string, k: nat)
    requires k < |table| && table[k].isGlobal && table[k].userId.None? && !table[k].isRead
    ensures UnreadCount(AllMarkedRead(ns)) == 0
    ensures !ServerMarkAllRead(table, uid)[k].isRead && VisibleTo(ServerMarkAllRead(table, uid)[k], uid)
  {
  }

  /** The hook's state. */
  class Notifications {
    var notifications: seq<Notification>
    var loading: bool
    var error: Option<string>

    constructor ()
      ensures notifications == [] && loading && error == None
    {
      notifications := [];
      loading := true;
      error := None;
    }

    /** The badge number the dashboards show. */
    function Unread(): (c: nat)
      reads this
      ensures c <= |notifications|
      ensures c == 0 <==> forall i :: 0 <= i < |notifications| ==> notifications[i].isRead
    {
      UnreadCount(notifications)
    }

    /** `fetchNotifications`: without a client or a user only loading ends. Otherwise a failed
        query empties the list and records its message, and a successful one installs the rows
        the query selects; loading ends either way. */
    method Fetch(hasClient: bool, userId: Option<string>, table: Outcome<seq<Notification>>)
      modifies this
      ensures !loading
      ensures !hasClient || userId.None? ==> notifications == old(notifications) && error == old(error)
      ensures hasClient && userId.Some? && table.Err? ==> notifications == [] && error == Some(table.message)
      ensures hasClient && userId.Some? && table.Ok? ==>
                notifications == Select(table.value, userId.value) && error == None
    {
      if !hasClient || userId.None? {
        loading := false;
        return;
      }
      loading := true;
      error := None;
      match table {
        case Err(message) =>
          error := Some(message);
          notifications := [];
        case Ok(rows) =>
          notifications := Select(rows, userId.value);
      }
      loading := false;
    }

    /** The real-time insert callback: the new notification goes in front and the others keep
        their order. */
    method OnInsert(n: Notification)
      modifies this
      ensures notifications == [n] + old(notifications)
      ensures Unread() == old(Unread()) + (if n.isRead then 0 else 1)
      ensures loading == old(loading) && error == old(error)
    {
      UnreadCountPrepend(n, notifications);
      notifications := [n] + notifications;
    }

    /** `markAsRead(id)`: after a successful update only the notifications with that id become
        read; a failed update (or no client) changes nothing. */
    method MarkAsRead(hasClient: bool, id: string, updateError: Option<string>)
      modifies this
      ensures hasClient && updateError.None? ==> notifications == MarkedRead(old(notifications), id)
      ensures hasClient && updateError.None? ==> Unread() == old(Unread()) - UnreadWithId(old(notifications), id)
      ensures !hasClient || updateError.Some? ==> notifications == old(notifications)
      ensures loading == old(loading) && error == old(error)
    {
      if !hasClient {
        return;
      }
      if updateError.None? {
        MarkedReadUnreadCount(notifications, id);
        notifications := MarkedRead(notifications, id);
      }
    }

    /** `markAllAsRead`: after a successful update every local notification is read and the
        unread count is zero; a failed update, or no client or user, changes nothing. */
    method MarkAllAsRead(hasClient: bool, userId: Option<string>, updateError: Option<string>)
      modifies this
      ensures hasClient && userId.Some? && updateError.None? ==>
                notifications == AllMarkedRead(old(notifications)) && Unread() == 0
      ensures !hasClient || userId.None? || updateError.Some? ==> notifications == old(notifications)
      ensures loading == old(loading) && error == old(error)
    {
      if !hasClient || userId.None? {
        return;
      }
      if updateError.None? {
        notifications := AllMarkedRead(notifications);
      }
    }
  }
}
