/**
 * The notification that tells the participant that permissions were revoked. It is posted only
 * when some permission is revoked, at least an hour has passed since the last one, and the set
 * of revoked permissions differs from the set the last one reported.
 *
 * The time and the set of the last notification are the stored values the helper reads and
 * writes; both clock readings of one call are its `now`. The notification itself is recorded by
 * its id and the number of permissions it names.
 */
module PermissionNotifications {
  const NotificationId: int := 1051
  const MinNotificationIntervalMs: int := 60 * 60 * 1000

  /** A posted notification: its id, the time it was posted and how many permissions it names. */
  datatype Notice = Notice(id: int, postedAt: int, revokedCount: int)

  /** The stored time and set of the last notification, and the notifications posted. */
  datatype NotifierState = NotifierState(lastNotificationTime: int, lastRevoked: set<string>, notices: seq<Notice>)

  /** `filterValues { !it }`: the permissions whose granted flag is false. */
  function Revoked(perms: map<string, bool>): map<string, bool>
  {
    map k | k in perms && !perms[k] :: perms[k]
  }

  /** The names of the revoked permissions. */
  function RevokedNames(perms: map<string, bool>): (r: set<string>)
    ensures forall k :: k in r <==> k in perms && !perms[k]
  {
    Revoked(perms).Keys
  }

  /** Filtering an already filtered map changes nothing. */
  lemma RevokedIdempotent(perms: map<string, bool>)
    ensures Revoked(Revoked(perms)) == Revoked(perms)
  {
  }

  /** `shouldShowNotification`: throttled for an hour, then skipped while the same set is revoked. */
  predicate ShouldShow(st: NotifierState, revoked: map<string, bool>, now: int)
  {
    if now - st.lastNotificationTime < MinNotificationIntervalMs then false
    else if RevokedNames(revoked) == st.lastRevoked then false
    else true
  }

  /**
   * `showPermissionRevokedNotification`: nothing without a revoked permission or when the
   * notification should not be shown; otherwise post it and store the time and the set.
   */
  function Show(st: NotifierState, perms: map<string, bool>, now: int): NotifierState
  {
    var revoked := Revoked(perms);
    if |revoked| == 0 then st
    else if !ShouldShow(st, revoked, now) then st
    else NotifierState(now, revoked.Keys, st.notices + [Notice(NotificationId, now, |revoked|)])
  }

  /**
   * A notification is posted exactly when a permission is revoked, an hour has passed since the
   * last one and the revoked set is new; it names the revoked permissions, and the stored time and
   * set become its own. Otherwise nothing changes.
   */
  lemma ShowPostsExactlyWhenDue(st: NotifierState, perms: map<string, bool>, now: int)
    ensures var r := Show(st, perms, now);
            var due := RevokedNames(perms) != {}
                       && now - st.lastNotificationTime >= MinNotificationIntervalMs
                       && RevokedNames(perms) != st.lastRevoked;
            && (due ==> r == NotifierState(now, RevokedNames(perms), st.notices + [Notice(NotificationId, now, |RevokedNames(perms)|)]))
            && (!due ==> r == st)
  {
    var revoked := Revoked(perms);
    assert |revoked| == |revoked.Keys|;
    assert RevokedNames(revoked) == RevokedNames(perms);
    if RevokedNames(perms) != {} {
      var k :| k in RevokedNames(perms);
      assert k in revoked;
    }
  }

  /** With every permission granted nothing is posted and nothing is stored. */
  lemma AllGrantedPostsNothing(st: NotifierState, perms: map<string, bool>, now: int)
    requires forall k :: k in perms ==> perms[k]
    ensures Show(st, perms, now) == st
  {
    assert RevokedNames(perms) == {};
    ShowPostsExactlyWhenDue(st, perms, now);
  }

  /** Within an hour of the last notification nothing is posted. */
  lemma ThrottledWithinAnHour(st: NotifierState, perms: map<string, bool>, now: int)
    requires now - st.lastNotificationTime < MinNotificationIntervalMs
    ensures Show(st, perms, now) == st
  {
    ShowPostsExactlyWhenDue(st, perms, now);
  }

  /** Successive notifications are at least an hour apart, and the latest one is the stored time. */
  ghost predicate Spaced(st: NotifierState)
  {
    && (forall i :: 0 < i < |st.notices| ==> st.notices[i].postedAt - st.notices[i - 1].postedAt >= MinNotificationIntervalMs)
    && (|st.notices| > 0 ==> st.notices[|st.notices| - 1].postedAt == st.lastNotificationTime)
  }

  /** Every call keeps the notifications at least an hour apart, whatever the clock does. */
  lemma ShowKeepsSpacing(st: NotifierState, perms: map<string, bool>, now: int)
    requires Spaced(st)
    ensures Spaced(Show(st, perms, now))
  {
    ShowPostsExactlyWhenDue(st, perms, now);
  }

  /** The state after a series of calls, each with the permissions it saw and its time. */
  function ShowAll(st: NotifierState, calls: seq<(map<string, bool>, int)>): NotifierState
    decreases |calls|
  {
    if |calls| == 0 then st
    else ShowAll(Show(st, calls[0].0, calls[0].1), calls[1..])
  }

  /** Over any series of calls, no two notifications are less than an hour apart. */
  lemma {:induction false} ShowAllKeepsSpacing(st: NotifierState, calls: seq<(map<string, bool>, int)>)
    requires Spaced(st)
    ensures Spaced(ShowAll(st, calls))
    decreases |calls|
  {
    if |calls| > 0 {
      ShowKeepsSpacing(st, calls[0].0, calls[0].1);
      ShowAllKeepsSpacing(Show(st, calls[0].0, calls[0].1), calls[1..]);
    }
  }

  /** The same permissions revoked on two calls give at most one notification. */
  lemma SameRevokedSetNotifiesOnce(st: NotifierState, perms: map<string, bool>, t1: int, t2: int)
    ensures |Show(Show(st, perms, t1), perms, t2).notices| <= |st.notices| + 1
  {
    var mid := Show(st, perms, t1);
    ShowPostsExactlyWhenDue(st, perms, t1);
    ShowPostsExactlyWhenDue(mid, perms, t2);
  }

  /** `PermissionNotificationHelper` over the two stored values it reads and writes. */
  class PermissionNotificationHelper {
    var lastNotificationTime: int
    var lastRevokedPermissions: set<string>
    var notices: seq<Notice>

    function Model(): NotifierState
      reads this
    {
      NotifierState(lastNotificationTime, lastRevokedPermissions, notices)
    }

    constructor (lastNotificationTime: int, lastRevokedPermissions: set<string>)
      ensures Model() == NotifierState(lastNotificationTime, lastRevokedPermissions, [])
    {
      this.lastNotificationTime := lastNotificationTime;
      this.lastRevokedPermissions := lastRevokedPermissions;
      notices := [];
    }

    /** `shouldShowNotification` */
    method ShouldShowNotification(revoked: map<string, bool>, now: int) returns (show: bool)
      ensures show <==> now - lastNotificationTime >= MinNotificationIntervalMs
                        && RevokedNames(revoked) != lastRevokedPermissions
    {
      var timeSinceLastNotification := now - lastNotificationTime;
      if timeSinceLastNotification < MinNotificationIntervalMs {
        return false;
      }
      if RevokedNames(revoked) == lastRevokedPermissions {
        return false;
      }
      return true;
    }

    /** `showPermissionRevokedNotification` */
    method ShowPermissionRevokedNotification(perms: map<string, bool>, now: int)
      modifies this
      ensures Model() == Show(old(Model()), perms, now)
    {
      var revoked := Revoked(perms);
      if |revoked| == 0 {
        return;
      }
      var show := ShouldShowNotification(revoked, now);
      if !show {
        return;
      }
      notices := notices + [Notice(NotificationId, now, |revoked|)];
      lastNotificationTime := now;
      lastRevokedPermissions := revoked.Keys;
    }
  }
}
