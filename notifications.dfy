/** The rider's notification panel: a list refreshed from the backend, marked
    read or pruned only after the backend confirms, and its unread badge. */
module Notifications {
  import opened Common

  datatype Notification = Notification(id: string, title: string, isRead: bool, createdAt: string)

  /** The `/api/notifications` body: `docs` may be missing. */
  datatype NotificationsJson = NotificationsJson(docs: Option<seq<Notification>>)

  /** `list.map(n => ({ ...n, isRead: true }))`. */
  function MarkedRead(ns: seq<Notification>): (r: seq<Notification>)
    ensures |r| == |ns|
  {
    if ns == [] then [] else [ns[0].(isRead := true)] + MarkedRead(ns[1..])
  }

  /** `list.filter(n => n._id !== id)`. */
  function Without(ns: seq<Notification>, id: string): (r: seq<Notification>)
    ensures |r| <= |ns|
  {
    if ns == [] then []
    else (if ns[0].id != id then [ns[0]] else []) + Without(ns[1..], id)
  }

  /** `list.filter(n => !n.isRead).length`. */
  function CountUnread(ns: seq<Notification>): (r: nat)
    ensures r <= |ns|
  {
    if ns == [] then 0 else (if ns[0].isRead then 0 else 1) + CountUnread(ns[1..])
  }

  /** One item counts one when unread and nothing when read. */
  lemma CountUnreadSingle(n: Notification)
    ensures CountUnread([n]) == if n.isRead then 0 else 1
  {
    assert [n][1..] == [];
  }

  /** The count adds up over concatenation; with `CountUnreadSingle` this
      makes it the number of unread items. */
  lemma {:induction false} CountUnreadConcat(a: seq<Notification>, b: seq<Notification>)
    ensures CountUnread(a + b) == CountUnread(a) + CountUnread(b)
  {
    if a == [] {
      assert a + b == b;
    } else {
      assert (a + b)[0] == a[0] && (a + b)[1..] == a[1..] + b;
      CountUnreadConcat(a[1..], b);
    }
  }

  /** How many unread items carry `id`. */
  function UnreadWith(ns: seq<Notification>, id: string): (r: nat)
    ensures r <= CountUnread(ns)
  {
    if ns == [] then 0
    else (if ns[0].id == id && !ns[0].isRead then 1 else 0) + UnreadWith(ns[1..], id)
  }

  /** Marking all read keeps every item in place with its id, title and
      date, and sets its read flag. */
  lemma {:induction false} MarkedReadAt(ns: seq<Notification>, i: int)
    requires 0 <= i < |ns|
    ensures MarkedRead(ns)[i].id == ns[i].id && MarkedRead(ns)[i].title == ns[i].title
    ensures MarkedRead(ns)[i].createdAt == ns[i].createdAt && MarkedRead(ns)[i].isRead
  {
    if i > 0 {
      MarkedReadAt(ns[1..], i - 1);
    }
  }

  /** The badge counts zero exactly when every item is read. */
  lemma {:induction false} NoUnreadIff(ns: seq<Notification>)
    ensures CountUnread(ns) == 0 <==> forall i | 0 <= i < |ns| :: ns[i].isRead
  {
    if ns != [] {
      NoUnreadIff(ns[1..]);
      if CountUnread(ns) == 0 {
        forall i | 0 <= i < |ns| ensures ns[i].isRead {
          if i > 0 {
            assert ns[i] == ns[1..][i - 1];
          }
        }
      } else if forall i | 0 <= i < |ns| :: ns[i].isRead {
        assert ns[0].isRead;
        forall i | 0 <= i < |ns| - 1 ensures ns[1..][i].isRead {
          assert ns[1..][i] == ns[i + 1];
        }
        assert false;
      }
    }
  }

  /** After marking all read the badge shows zero. */
  lemma {:induction false} MarkedReadHasNoUnread(ns: seq<Notification>)
    ensures CountUnread(MarkedRead(ns)) == 0
  {
    if ns != [] {
      MarkedReadHasNoUnread(ns[1..]);
      assert MarkedRead(ns)[1..] == MarkedRead(ns[1..]);
    }
  }

  /** Deleting removes every item carrying the id and keeps each other item
      exactly as often as it occurred. */
  lemma {:induction false} WithoutCounts(ns: seq<Notification>, id: string, x: Notification)
    ensures multiset(Without(ns, id))[x] == if x.id == id then 0 else multiset(ns)[x]
  {
    if ns != [] {
      WithoutCounts(ns[1..], id, x);
      assert ns == [ns[0]] + ns[1..];
    }
  }

  /** Deleting keeps the relative order: it distributes over concatenation. */
  lemma {:induction false} WithoutConcat(a: seq<Notification>, b: seq<Notification>, id: string)
    ensures Without(a + b, id) == Without(a, id) + Without(b, id)
  {
    if a == [] {
      assert a + b == b;
    } else {
      var head := if a[0].id != id then [a[0]] else [];
      assert (a + b)[0] == a[0] && (a + b)[1..] == a[1..] + b;
      calc {
        Without(a + b, id);
        head + Without(a[1..] + b, id);
        { WithoutConcat(a[1..], b, id); }
        head + (Without(a[1..], id) + Without(b, id));
        (head + Without(a[1..], id)) + Without(b, id);
        Without(a, id) + Without(b, id);
      }
    }
  }

  /** Deleting an id that no item carries leaves the list unchanged. */
  lemma {:induction false} WithoutAbsent(ns: seq<Notification>, id: string)
    requires forall i | 0 <= i < |ns| :: ns[i].id != id
    ensures Without(ns, id) == ns
  {
    if ns != [] {
      WithoutAbsent(ns[1..], id);
    }
  }

  /** Deleting the same id a second time changes nothing. */
  lemma {:induction false} WithoutIdempotent(ns: seq<Notification>, id: string)
    ensures Without(Without(ns, id), id) == Without(ns, id)
  {
    if ns != [] {
      WithoutIdempotent(ns[1..], id);
      var w := Without(ns, id);
      if ns[0].id != id {
        assert w == [ns[0]] + Without(ns[1..], id);
        assert w[0] == ns[0] && w[1..] == Without(ns[1..], id);
        assert Without(w, id) == [ns[0]] + Without(w[1..], id);
      } else {
        assert w == [] + Without(ns[1..], id) == Without(ns[1..], id);
      }
    }
  }

  /** Deleting lowers the badge count by exactly the unread items that
      carry the id, so it never raises it. */
  lemma {:induction false} WithoutUnread(ns: seq<Notification>, id: string)
    ensures CountUnread(Without(ns, id)) == CountUnread(ns) - UnreadWith(ns, id)
    ensures CountUnread(Without(ns, id)) <= CountUnread(ns)
  {
    if ns != [] {
      WithoutUnread(ns[1..], id);
      var w := Without(ns, id);
      if ns[0].id != id {
        assert w == [ns[0]] + Without(ns[1..], id);
        assert w[0] == ns[0] && w[1..] == Without(ns[1..], id);
        assert CountUnread(w) == (if ns[0].isRead then 0 else 1) + CountUnread(w[1..]);
      } else {
        assert w == [] + Without(ns[1..], id) == Without(ns[1..], id);
      }
    }
  }

  /** The notification page's state. */
  class NotificationPanel {
    var notifications: seq<Notification>
    var loading: bool
    var error: Option<string>

    constructor ()
      ensures notifications == [] && !loading && error == None
    {
      notifications, loading, error := [], false, None;
    }

    /** The badge: how many items are unread. */
    function UnreadCount(): (r: nat)
      reads this
      ensures r <= |notifications|
      ensures r == 0 <==> forall i | 0 <= i < |notifications| :: notifications[i].isRead
    {
      NoUnreadIff(notifications);
      CountUnread(notifications)
    }

    /** The mount-time fetch, run only with an access token: a successful
        reply replaces the list with `docs` (or the empty list), a failed one
        keeps the list and records the error. */
    method FetchNotifications(hasToken: bool, reply: Reply<NotificationsJson>)
      modifies this
      ensures !hasToken ==> notifications == old(notifications) && error == old(error) &&
                            loading == old(loading)
      ensures hasToken ==> !loading
      ensures hasToken && reply.Ok? ==>
        error == None &&
        notifications == (if reply.body.docs.Some? then reply.body.docs.value else [])
      ensures hasToken && reply.NotOk? ==>
        notifications == old(notifications) && error == Some("Failed to fetch notifications")
      ensures hasToken && reply.Failed? ==>
        notifications == old(notifications) && error == Some(ErrorText(reply.thrown))
    {
      if !hasToken {
        return;
      }
      loading := true;
      error := None;
      match reply {
        case Ok(body) =>
          notifications := if body.docs.Some? then body.docs.value else [];
        case NotOk(_) =>
          error := Some("Failed to fetch notifications");
        case Failed(t) =>
          error := Some(ErrorText(t));
      }
      loading := false;
    }

    /** Marks every item read, only once the backend has confirmed. */
    method MarkAllAsRead(reply: Reply<Empty>)
      modifies this
      ensures loading == old(loading)
      ensures reply.Ok? ==> notifications == MarkedRead(old(notifications)) && error == old(error)
      ensures reply.Ok? ==> UnreadCount() == 0
      ensures reply.NotOk? ==>
        notifications == old(notifications) && error == Some("Failed to mark notifications as read")
      ensures reply.Failed? ==>
        notifications == old(notifications) && error == Some(ErrorText(reply.thrown))
    {
      match reply {
        case Ok(_) =>
          notifications := MarkedRead(notifications);
          MarkedReadHasNoUnread(old(notifications));
        case NotOk(_) =>
          error := Some("Failed to mark notifications as read");
        case Failed(t) =>
          error := Some(ErrorText(t));
      }
    }

    /** Removes every item with the id, only once the backend has confirmed. */
    method DeleteNotification(id: string, reply: Reply<Empty>)
      modifies this
      ensures loading == old(loading)
      ensures reply.Ok? ==> notifications == Without(old(notifications), id) && error == old(error)
      ensures reply.Ok? ==> UnreadCount() == old(UnreadCount()) - UnreadWith(old(notifications), id)
      ensures reply.NotOk? ==>
        notifications == old(notifications) && error == Some("Failed to delete notification")
      ensures reply.Failed? ==>
        notifications == old(notifications) && error == Some(ErrorText(reply.thrown))
    {
      match reply {
        case Ok(_) =>
          notifications := Without(notifications, id);
          WithoutUnread(old(notifications), id);
        case NotOk(_) =>
          error := Some("Failed to delete notification");
        case Failed(t) =>
          error := Some(ErrorText(t));
      }
    }
  }
}
