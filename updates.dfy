/** What the UPDATE statements of the query layer do to a table, and the alarm and
    notification lifecycles they implement. */
module Updates {
  import opened Wrappers
  import opened Schema
  import opened Tables
  import opened Queries

  // ============ RESTRICTION ALARMS ============

  /** The terminal state: notified, inactive, stamped with the notification time
      (and, through ON UPDATE CURRENT_TIMESTAMP, with a fresh `updatedAt`). */
  function Notified(a: RestrictionAlarm, now: Timestamp): (r: RestrictionAlarm)
    ensures r.wasNotified && !r.isActive && r.notifiedAt == Some(now)
    ensures !Pending(r)
    ensures r.id == a.id && r.userId == a.userId && r.phoneNumberId == a.phoneNumberId
    ensures r.notifyAt == a.notifyAt && r.expectedReturnTime == a.expectedReturnTime
    ensures r.restrictionStartTime == a.restrictionStartTime && r.notes == a.notes
    ensures r.createdAt == a.createdAt && r.updatedAt == now
  {
    a.(wasNotified := true, notifiedAt := Some(now), isActive := false, updatedAt := now)
  }

  /** `UPDATE restriction_alarms SET wasNotified, notifiedAt, isActive WHERE id = ?`. */
  function MarkNotified(alarms: seq<RestrictionAlarm>, id: int, now: Timestamp): (r: seq<RestrictionAlarm>)
    ensures |r| == |alarms|
    ensures forall i :: 0 <= i < |alarms| && alarms[i].id == id ==> r[i] == Notified(alarms[i], now)
    ensures forall i :: 0 <= i < |alarms| && alarms[i].id != id ==> r[i] == alarms[i]
  {
    MapRows(alarms, (a: RestrictionAlarm) => if a.id == id then Notified(a, now) else a)
  }

  /** Rows of other alarms keep their multiplicity: the update touches only its own id. */
  lemma {:induction false} MarkNotifiedKeepsOthers(alarms: seq<RestrictionAlarm>, id: int, now: Timestamp, a: RestrictionAlarm)
    requires a.id != id
    ensures multiset(MarkNotified(alarms, id, now))[a] == multiset(alarms)[a]
  {
    if alarms != [] {
      MarkNotifiedKeepsOthers(alarms[1..], id, now, a);
      var r := MarkNotified(alarms, id, now);
      assert r == [r[0]] + MarkNotified(alarms[1..], id, now);
      assert alarms == [alarms[0]] + alarms[1..];
    }
  }

  /** After the transition the alarm is in neither queue. */
  lemma MarkNotifiedLeavesQueues(alarms: seq<RestrictionAlarm>, id: int, now: Timestamp, userId: int, t: Timestamp)
    ensures forall a :: a in ActiveAlarms(MarkNotified(alarms, id, now), userId) ==> a.id != id
    ensures forall a :: a in AlarmsToNotify(MarkNotified(alarms, id, now), t) ==> a.id != id
  {
    var r := MarkNotified(alarms, id, now);
    forall a | a in r && a.id == id ensures !Pending(a) {
      var i :| 0 <= i < |r| && r[i] == a;
    }
    forall a | a in ActiveAlarms(r, userId) ensures a.id != id {
      assert a in multiset(ActiveAlarms(r, userId));
    }
  }

  /** Every other alarm is in each queue exactly as often as before the transition. */
  lemma MarkNotifiedKeepsOtherQueued(alarms: seq<RestrictionAlarm>, id: int, now: Timestamp, userId: int, t: Timestamp)
    ensures forall a: RestrictionAlarm :: a.id != id ==>
      multiset(ActiveAlarms(MarkNotified(alarms, id, now), userId))[a] == multiset(ActiveAlarms(alarms, userId))[a]
    ensures forall a: RestrictionAlarm :: a.id != id ==>
      multiset(AlarmsToNotify(MarkNotified(alarms, id, now), t))[a] == multiset(AlarmsToNotify(alarms, t))[a]
  {
    forall a: RestrictionAlarm | a.id != id
      ensures multiset(ActiveAlarms(MarkNotified(alarms, id, now), userId))[a] == multiset(ActiveAlarms(alarms, userId))[a]
      ensures multiset(AlarmsToNotify(MarkNotified(alarms, id, now), t))[a] == multiset(AlarmsToNotify(alarms, t))[a]
    {
      OtherAlarmQueued(alarms, id, now, userId, t, a);
    }
  }

  lemma OtherAlarmQueued(alarms: seq<RestrictionAlarm>, id: int, now: Timestamp, userId: int, t: Timestamp, a: RestrictionAlarm)
    requires a.id != id
    ensures multiset(ActiveAlarms(MarkNotified(alarms, id, now), userId))[a] == multiset(ActiveAlarms(alarms, userId))[a]
    ensures multiset(AlarmsToNotify(MarkNotified(alarms, id, now), t))[a] == multiset(AlarmsToNotify(alarms, t))[a]
  {
    var r := MarkNotified(alarms, id, now);
    MarkNotifiedKeepsOthers(alarms, id, now, a);
    var m := multiset(r)[a];
    assert multiset(ActiveAlarms(r, userId))[a] == if a.userId == userId && Pending(a) then m else 0;
    assert multiset(AlarmsToNotify(r, t))[a] == if Pending(a) && a.notifyAt <= t then m else 0;
  }

  /** The update changes no id, so ids stay below any bound they were below. */
  lemma MarkNotifiedKeepsIds(alarms: seq<RestrictionAlarm>, id: int, now: Timestamp, bound: int)
    requires forall a :: a in alarms ==> a.id < bound
    ensures forall a :: a in MarkNotified(alarms, id, now) ==> a.id < bound
  {
    var r := MarkNotified(alarms, id, now);
    forall a | a in r ensures a.id < bound {
      var i :| 0 <= i < |r| && r[i] == a;
      assert alarms[i] in alarms;
    }
  }

  /** Fetching the alarm back after the update finds it exactly when it existed,
      and finds it notified at `now` and inactive. */
  lemma MarkNotifiedFetch(alarms: seq<RestrictionAlarm>, id: int, now: Timestamp)
    ensures FindAlarm(MarkNotified(alarms, id, now), id).None? <==> forall a :: a in alarms ==> a.id != id
    ensures FindAlarm(MarkNotified(alarms, id, now), id).Some? ==>
      var a := FindAlarm(MarkNotified(alarms, id, now), id).value;
      a.id == id && a.wasNotified && !a.isActive && a.notifiedAt == Some(now)
  {
    var r := MarkNotified(alarms, id, now);
    var found := FindAlarm(r, id);
    if found.Some? {
      var i :| 0 <= i < |r| && r[i] == found.value;
      assert alarms[i].id == id;
    } else {
      forall a | a in alarms ensures a.id != id {
        var i :| 0 <= i < |alarms| && alarms[i] == a;
        assert r[i] in r;
      }
    }
  }

  /** A second transition keeps both flags and rewrites only the notification time. */
  lemma MarkNotifiedTwice(alarms: seq<RestrictionAlarm>, id: int, t1: Timestamp, t2: Timestamp)
    ensures MarkNotified(MarkNotified(alarms, id, t1), id, t2) == MarkNotified(alarms, id, t2)
  {
  }

  /** The transition is one-way: it never reactivates or un-notifies an alarm. */
  lemma MarkNotifiedOneWay(alarms: seq<RestrictionAlarm>, id: int, now: Timestamp)
    ensures forall i :: 0 <= i < |alarms| ==>
      (alarms[i].wasNotified ==> MarkNotified(alarms, id, now)[i].wasNotified) &&
      (!alarms[i].isActive ==> !MarkNotified(alarms, id, now)[i].isActive)
  {
  }

  /** A newly created alarm with the column defaults starts in its user's active
      queue, and is due exactly once its `notifyAt` has come. */
  lemma NewAlarmIsQueued(alarms: seq<RestrictionAlarm>, id: int, data: NewRestrictionAlarm, now: Timestamp, t: Timestamp)
    requires data.isActive.None? && data.wasNotified.None?
    ensures AlarmRow(id, data, now) in ActiveAlarms(alarms + [AlarmRow(id, data, now)], data.userId)
    ensures AlarmRow(id, data, now) in AlarmsToNotify(alarms + [AlarmRow(id, data, now)], t) <==> data.notifyAt <= t
  {
    var row := AlarmRow(id, data, now);
    var s := alarms + [row];
    assert row in multiset(s);
    assert row in multiset(ActiveAlarms(s, data.userId));
    if data.notifyAt <= t {
      assert row in multiset(AlarmsToNotify(s, t));
    }
  }

  // ============ NOTIFICATIONS ============

  /** `UPDATE notifications SET isRead = true WHERE id = ?`. */
  function MarkRead(ns: seq<Notification>, id: int): (r: seq<Notification>)
    ensures |r| == |ns|
    ensures forall i :: 0 <= i < |ns| && ns[i].id == id ==> r[i] == ns[i].(isRead := true)
    ensures forall i :: 0 <= i < |ns| && ns[i].id != id ==> r[i] == ns[i]
  {
    MapRows(ns, (n: Notification) => if n.id == id then n.(isRead := true) else n)
  }

  /** `UPDATE notifications SET isRead = true WHERE userId = ?`. */
  function MarkAllRead(ns: seq<Notification>, userId: int): (r: seq<Notification>)
    ensures |r| == |ns|
    ensures forall i :: 0 <= i < |ns| && ns[i].userId == userId ==> r[i] == ns[i].(isRead := true)
    ensures forall i :: 0 <= i < |ns| && ns[i].userId != userId ==> r[i] == ns[i]
  {
    MapRows(ns, (n: Notification) => if n.userId == userId then n.(isRead := true) else n)
  }

  lemma MarkReadKeepsIds(ns: seq<Notification>, id: int, bound: int)
    requires forall n :: n in ns ==> n.id < bound
    ensures forall n :: n in MarkRead(ns, id) ==> n.id < bound
  {
    var r := MarkRead(ns, id);
    forall n | n in r ensures n.id < bound {
      var i :| 0 <= i < |r| && r[i] == n;
      assert ns[i] in ns;
    }
  }

  lemma MarkAllReadKeepsIds(ns: seq<Notification>, userId: int, bound: int)
    requires forall n :: n in ns ==> n.id < bound
    ensures forall n :: n in MarkAllRead(ns, userId) ==> n.id < bound
  {
    var r := MarkAllRead(ns, userId);
    forall n | n in r ensures n.id < bound {
      var i :| 0 <= i < |r| && r[i] == n;
      assert ns[i] in ns;
    }
  }

  /** A read notification leaves the unread list. */
  lemma MarkReadLeavesUnread(ns: seq<Notification>, id: int, userId: int)
    ensures forall n :: n in UnreadNotifications(MarkRead(ns, id), userId) ==> n.id != id
  {
    var r := MarkRead(ns, id);
    forall n | n in r && n.id == id ensures n.isRead {
      var i :| 0 <= i < |r| && r[i] == n;
    }
    forall n | n in UnreadNotifications(r, userId) ensures n.id != id {
      assert n in multiset(UnreadNotifications(r, userId));
    }
  }

  /** After marking all of a user's notifications read, none of theirs is unread. */
  lemma MarkAllReadEmptiesUnread(ns: seq<Notification>, userId: int)
    ensures UnreadNotifications(MarkAllRead(ns, userId), userId) == []
  {
    var r := MarkAllRead(ns, userId);
    forall n | n in r ensures !(n.userId == userId && !n.isRead) {
      var i :| 0 <= i < |r| && r[i] == n;
    }
    FilterNone(r, (n: Notification) => n.userId == userId && !n.isRead);
  }
}
