/** The notification bell (client/src/components/NotificationBell.jsx): the list of
    notifications, the unread badge, and the polling that refreshes them while a user is
    signed in. Requests are replaced by their outcomes. */
module NotificationBell {
  import opened Js
  import opened AuthContext

  datatype Notification = Notification(id: string, message: string, isRead: bool)

  /** What `GET /api/notifications` gave. */
  datatype FetchOutcome = Fetched(data: seq<Notification>) | FetchFailed

  /** The polling period, in milliseconds. */
  const PollInterval: nat := 60000

  /** `data.filter(n => !n.isRead).length` */
  function CountUnread(ns: seq<Notification>): (c: nat)
    ensures c <= |ns|
    ensures c == 0 <==> forall i :: 0 <= i < |ns| ==> ns[i].isRead
    ensures c == |ns| <==> forall i :: 0 <= i < |ns| ==> !ns[i].isRead
  {
    if ns == [] then 0
    else
      var rest := CountUnread(ns[1..]);
      assert forall i :: 1 <= i < |ns| ==> ns[i] == ns[1..][i - 1];
      (if ns[0].isRead then 0 else 1) + rest
  }

  /** Counting splits over concatenation. */
  lemma {:induction false} CountUnreadAppend(a: seq<Notification>, b: seq<Notification>)
    ensures CountUnread(a + b) == CountUnread(a) + CountUnread(b)
  {
    if a == [] {
      assert a + b == b;
    } else {
      assert (a + b)[0] == a[0] && (a + b)[1..] == a[1..] + b;
      CountUnreadAppend(a[1..], b);
    }
  }

  /** The polling effect runs exactly while a user is signed in. */
  predicate PollingActive(user: Option<User>) {
    user.Some?
  }

  class Bell {
    var notifications: seq<Notification>
    var unreadCount: nat
    var isLoading: bool
    /** Whether an interval is currently scheduled. */
    var polling: bool

    /** The badge never shows more than the unread items in the list. */
    ghost predicate Valid() reads this {
      unreadCount <= CountUnread(notifications)
    }

    constructor ()
      ensures Valid() && notifications == [] && unreadCount == 0 && !isLoading && !polling
    {
      notifications := [];
      unreadCount := 0;
      isLoading := false;
      polling := false;
    }

    /** `fetchNotifications`: on success the list and its unread count are replaced; on
        failure both are kept. Loading is over either way. */
    method Fetch(outcome: FetchOutcome)
      requires Valid()
      modifies this
      ensures Valid() && !isLoading && polling == old(polling)
      ensures outcome.Fetched? ==> notifications == outcome.data && unreadCount == CountUnread(outcome.data)
      ensures outcome.FetchFailed? ==> notifications == old(notifications) && unreadCount == old(unreadCount)
    {
      isLoading := true;
      if outcome.Fetched? {
        notifications := outcome.data;
        unreadCount := CountUnread(outcome.data);
      }
      isLoading := false;
    }

    /** `markAsRead`: when the post succeeds the badge drops to 0 and the list is
        fetched again; when it fails nothing changes. */
    method MarkAsRead(posted: bool, refetch: FetchOutcome)
      requires Valid()
      modifies this
      ensures Valid() && polling == old(polling)
      ensures !posted ==> notifications == old(notifications) && unreadCount == old(unreadCount) &&
                          isLoading == old(isLoading)
      ensures posted && refetch.Fetched? ==>
                notifications == refetch.data && unreadCount == CountUnread(refetch.data) && !isLoading
      ensures posted && refetch.FetchFailed? ==>
                notifications == old(notifications) && unreadCount == 0 && !isLoading
    {
      if !posted {
        return;
      }
      unreadCount := 0;
      Fetch(refetch);
    }

    /** The effect on a change of `user`: the old interval is cleared; with a user, one
        fetch now and a new interval. */
    method OnUserChange(user: Option<User>, outcome: FetchOutcome)
      requires Valid()
      modifies this
      ensures Valid() && polling == PollingActive(user)
      ensures user.Some? && outcome.Fetched? ==>
                notifications == outcome.data && unreadCount == CountUnread(outcome.data)
      ensures user.None? || outcome.FetchFailed? ==>
                notifications == old(notifications) && unreadCount == old(unreadCount)
      ensures user.Some? ==> !isLoading
      ensures user.None? ==> isLoading == old(isLoading)
    {
      polling := false;
      if user.Some? {
        Fetch(outcome);
        polling := true;
      }
    }

    /** One firing of the interval: a fetch, only while polling. */
    method Tick(outcome: FetchOutcome)
      requires Valid()
      modifies this
      ensures Valid() && polling == old(polling)
      ensures polling && outcome.Fetched? ==>
                notifications == outcome.data && unreadCount == CountUnread(outcome.data)
      ensures !polling || outcome.FetchFailed? ==>
                notifications == old(notifications) && unreadCount == old(unreadCount)
      ensures polling ==> !isLoading
      ensures !polling ==> isLoading == old(isLoading)
    {
      if polling {
        Fetch(outcome);
      }
    }
  }

  /** The badge is bounded by the length of the list it summarises. */
  lemma BadgeBounded(unreadCount: nat, ns: seq<Notification>)
    requires unreadCount <= CountUnread(ns)
    ensures unreadCount <= |ns|
    ensures ns == [] ==> unreadCount == 0
  {
  }
}
