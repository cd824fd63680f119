/** The read queries of the data-access layer. Each takes the table(s) it selects
    from as arguments (the storage handle is passed in, not fetched) and states
    which rows it returns and in what order: an unlimited query returns each
    matching row as often as it is stored, a limited one returns `limit` of them
    (all when there are fewer), each at most as often as stored. */
module Queries {
  import opened Wrappers
  import opened Schema
  import opened Tables

  /** The row limit of a listing whose caller leaves `limit` out. */
  const DefaultLimit: nat := 50

  // ============ OPERATIONS ============

  /** A user's operations, newest first. */
  function OperationsByUser(rows: seq<Operation>, userId: int): (r: seq<Operation>)
    ensures forall o :: multiset(r)[o] == if o.userId == userId then multiset(rows)[o] else 0
    ensures forall i, j :: 0 <= i < j < |r| ==> r[i].createdAt >= r[j].createdAt
  {
    SortBy(Filter(rows, (o: Operation) => o.userId == userId), (o: Operation) => -o.createdAt)
  }

  function FindOperation(rows: seq<Operation>, id: int): (r: Option<Operation>)
    ensures r.None? <==> forall o :: o in rows ==> o.id != id
    ensures r.Some? ==> r.value in rows && r.value.id == id
  {
    First(rows, (o: Operation) => o.id == id)
  }

  // ============ PHONE NUMBERS ============

  /** A user's numbers, most recently added first. */
  function PhoneNumbersByUser(rows: seq<PhoneNumber>, userId: int): (r: seq<PhoneNumber>)
    ensures forall n :: multiset(r)[n] == if n.userId == userId then multiset(rows)[n] else 0
    ensures forall i, j :: 0 <= i < j < |r| ==> r[i].addedAt >= r[j].addedAt
  {
    SortBy(Filter(rows, (n: PhoneNumber) => n.userId == userId), (n: PhoneNumber) => -n.addedAt)
  }

  /** An operation's numbers, whoever owns them, most recently added first. */
  function PhoneNumbersByOperation(rows: seq<PhoneNumber>, operationId: int): (r: seq<PhoneNumber>)
    ensures forall n :: multiset(r)[n] == if n.operationId == operationId then multiset(rows)[n] else 0
    ensures forall i, j :: 0 <= i < j < |r| ==> r[i].addedAt >= r[j].addedAt
  {
    SortBy(Filter(rows, (n: PhoneNumber) => n.operationId == operationId), (n: PhoneNumber) => -n.addedAt)
  }

  function FindPhoneNumber(rows: seq<PhoneNumber>, id: int): (r: Option<PhoneNumber>)
    ensures r.None? <==> forall n :: n in rows ==> n.id != id
    ensures r.Some? ==> r.value in rows && r.value.id == id
  {
    First(rows, (n: PhoneNumber) => n.id == id)
  }

  // ============ EVENTS ============

  /** A number's history, latest `eventDate` first. */
  function EventsOfPhoneNumber(events: seq<Event>, phoneNumberId: int): (r: seq<Event>)
    ensures forall e :: multiset(r)[e] == if e.phoneNumberId == phoneNumberId then multiset(events)[e] else 0
    ensures forall i, j :: 0 <= i < j < |r| ==> r[i].eventDate >= r[j].eventDate
  {
    SortBy(Filter(events, (e: Event) => e.phoneNumberId == phoneNumberId), (e: Event) => -e.eventDate)
  }

  /** The `limit` latest events across all numbers; `limit` defaults to 50 when
      the caller leaves it out. */
  function RecentEvents(events: seq<Event>, limit: Option<nat>): (r: seq<Event>)
    ensures var n := limit.GetOr(DefaultLimit); |r| == if |events| <= n then |events| else n
    ensures multiset(r) <= multiset(events)
    ensures forall i, j :: 0 <= i < j < |r| ==> r[i].eventDate >= r[j].eventDate
    ensures forall e, x :: e in events && e !in r && x in r ==> e.eventDate <= x.eventDate
  {
    var n := limit.GetOr(DefaultLimit);
    var key := (e: Event) => -e.eventDate;
    var r := Take(SortBy(events, key), n);
    TakeSortedWithin(events, key, n);
    forall e, x | e in events && e !in r && x in r ensures e.eventDate <= x.eventDate {
      TakeSortedKeepsSmallest(events, key, n, e, x);
    }
    r
  }

  function FindEvent(events: seq<Event>, id: int): (r: Option<Event>)
    ensures r.None? <==> forall e :: e in events ==> e.id != id
    ensures r.Some? ==> r.value in events && r.value.id == id
  {
    First(events, (e: Event) => e.id == id)
  }

  // ============ TAGS ============

  function FindTag(tags: seq<Tag>, id: int): (r: Option<Tag>)
    ensures r.None? <==> forall t :: t in tags ==> t.id != id
    ensures r.Some? ==> r.value in tags && r.value.id == id
  {
    First(tags, (t: Tag) => t.id == id)
  }

  /** The tags linked to a number: for each link of the number, in link order,
      the tag rows the link points at. A tag linked twice is listed twice. */
  function TagsForPhoneNumber(tags: seq<Tag>, links: seq<PhoneNumberTag>, phoneNumberId: int): (r: seq<Tag>)
    ensures forall t :: t in r ==> t in tags
    ensures (forall l :: l in links ==> l.phoneNumberId != phoneNumberId) ==> r == []
  {
    var f := (l: PhoneNumberTag) => JoinedTags(tags, l, phoneNumberId);
    var r := FlatMap(links, f);
    FlatMapMembers(links, f);
    assert r != [] ==> r[0] in r;
    r
  }

  /** What one link contributes: its tag's rows when it belongs to the number. */
  function JoinedTags(tags: seq<Tag>, l: PhoneNumberTag, phoneNumberId: int): (r: seq<Tag>)
    ensures forall t :: t in r <==> l.phoneNumberId == phoneNumberId && t in tags && t.id == l.tagId
  {
    if l.phoneNumberId == phoneNumberId then TagsWithId(tags, l.tagId) else []
  }

  /** The tag rows a link with tag id `tagId` joins to. */
  function TagsWithId(tags: seq<Tag>, tagId: int): (r: seq<Tag>)
    ensures forall t :: t in r <==> t in tags && t.id == tagId
  {
    Filter(tags, (t: Tag) => t.id == tagId)
  }

  /** A tag is listed for a number exactly when it is a stored tag and some link
      joins the number to its id. */
  lemma TagsForPhoneNumberMembers(tags: seq<Tag>, links: seq<PhoneNumberTag>, phoneNumberId: int)
    ensures forall t :: t in TagsForPhoneNumber(tags, links, phoneNumberId) <==>
              t in tags && exists l :: l in links && l.phoneNumberId == phoneNumberId && l.tagId == t.id
  {
    var f := (l: PhoneNumberTag) => JoinedTags(tags, l, phoneNumberId);
    FlatMapMembers(links, f);
    forall t ensures t in TagsForPhoneNumber(tags, links, phoneNumberId) <==>
                     t in tags && exists l :: l in links && l.phoneNumberId == phoneNumberId && l.tagId == t.id
    {
      if t in TagsForPhoneNumber(tags, links, phoneNumberId) {
        var l :| l in links && t in f(l);
      }
      if t in tags && exists l :: l in links && l.phoneNumberId == phoneNumberId && l.tagId == t.id {
        var l :| l in links && l.phoneNumberId == phoneNumberId && l.tagId == t.id;
        assert t in f(l);
      }
    }
  }

  /** A link appended to the link table appends its tags to the number's list, and
      nothing is deduplicated: a second identical link lists its tag a second time. */
  lemma TagsForPhoneNumberAppend(tags: seq<Tag>, links: seq<PhoneNumberTag>, l: PhoneNumberTag, phoneNumberId: int)
    ensures TagsForPhoneNumber(tags, links + [l], phoneNumberId) ==
            TagsForPhoneNumber(tags, links, phoneNumberId) + JoinedTags(tags, l, phoneNumberId)
  {
    var f := (l: PhoneNumberTag) => JoinedTags(tags, l, phoneNumberId);
    FlatMapAppend(links, [l], f);
    assert FlatMap([l], f) == f(l) + FlatMap([l][1..], f);
    assert [l][1..] == [];
  }

  /** A new link adds its tag's rows at the end of its own number's list and leaves
      every other number's list as it was. */
  lemma AddLinkEffect(tags: seq<Tag>, links: seq<PhoneNumberTag>, l: PhoneNumberTag)
    ensures TagsForPhoneNumber(tags, links + [l], l.phoneNumberId) ==
            TagsForPhoneNumber(tags, links, l.phoneNumberId) + TagsWithId(tags, l.tagId)
    ensures forall pid :: pid != l.phoneNumberId ==>
      TagsForPhoneNumber(tags, links + [l], pid) == TagsForPhoneNumber(tags, links, pid)
  {
    TagsForPhoneNumberAppend(tags, links, l, l.phoneNumberId);
    forall pid | pid != l.phoneNumberId
      ensures TagsForPhoneNumber(tags, links + [l], pid) == TagsForPhoneNumber(tags, links, pid)
    {
      TagsForPhoneNumberAppend(tags, links, l, pid);
    }
  }

  // ============ RESTRICTION ALARMS ============

  /** An alarm still waiting to fire: active and not yet notified. */
  predicate Pending(a: RestrictionAlarm) {
    a.isActive && !a.wasNotified
  }

  /** A user's alarms, newest first. */
  function AlarmsByUser(alarms: seq<RestrictionAlarm>, userId: int): (r: seq<RestrictionAlarm>)
    ensures forall a :: multiset(r)[a] == if a.userId == userId then multiset(alarms)[a] else 0
    ensures forall i, j :: 0 <= i < j < |r| ==> r[i].createdAt >= r[j].createdAt
  {
    SortBy(Filter(alarms, (a: RestrictionAlarm) => a.userId == userId), (a: RestrictionAlarm) => -a.createdAt)
  }

  /** The queue a scheduler polls: the user's pending alarms, soonest `notifyAt` first. */
  function ActiveAlarms(alarms: seq<RestrictionAlarm>, userId: int): (r: seq<RestrictionAlarm>)
    ensures forall a :: multiset(r)[a] == if a.userId == userId && Pending(a) then multiset(alarms)[a] else 0
    ensures forall a :: a in r ==> a.isActive && !a.wasNotified
    ensures forall i, j :: 0 <= i < j < |r| ==> r[i].notifyAt <= r[j].notifyAt
  {
    SortBy(Filter(alarms, (a: RestrictionAlarm) => a.userId == userId && Pending(a)),
           (a: RestrictionAlarm) => a.notifyAt)
  }

  /** The due subset across every user: pending alarms whose `notifyAt` is not
      after `now`, in table order (no user filter, no ordering). */
  function AlarmsToNotify(alarms: seq<RestrictionAlarm>, now: Timestamp): (r: seq<RestrictionAlarm>)
    ensures forall a :: multiset(r)[a] == if Pending(a) && a.notifyAt <= now then multiset(alarms)[a] else 0
    ensures forall a :: a in r ==> a.isActive && !a.wasNotified && a.notifyAt <= now
  {
    Filter(alarms, (a: RestrictionAlarm) => Pending(a) && a.notifyAt <= now)
  }

  function FindAlarm(alarms: seq<RestrictionAlarm>, id: int): (r: Option<RestrictionAlarm>)
    ensures r.None? <==> forall a :: a in alarms ==> a.id != id
    ensures r.Some? ==> r.value in alarms && r.value.id == id
  {
    First(alarms, (a: RestrictionAlarm) => a.id == id)
  }

  datatype AlarmWithPhone = AlarmWithPhone(alarm: RestrictionAlarm, phoneNumber: Option<PhoneNumber>)

  /** An alarm together with the number it is about; none when the alarm is
      absent, and a missing number when the number row is gone. */
  function AlarmWithPhoneNumber(alarms: seq<RestrictionAlarm>, phones: seq<PhoneNumber>, alarmId: int)
    : (r: Option<AlarmWithPhone>)
    ensures r.None? <==> forall a :: a in alarms ==> a.id != alarmId
    ensures r.Some? ==> r.value.alarm in alarms && r.value.alarm.id == alarmId
    ensures r.Some? ==> (r.value.phoneNumber.None? <==>
                         forall n :: n in phones ==> n.id != r.value.alarm.phoneNumberId)
    ensures r.Some? && r.value.phoneNumber.Some? ==>
      r.value.phoneNumber.value in phones && r.value.phoneNumber.value.id == r.value.alarm.phoneNumberId
  {
    match FindAlarm(alarms, alarmId)
    case None => None
    case Some(alarm) => Some(AlarmWithPhone(alarm, FindPhoneNumber(phones, alarm.phoneNumberId)))
  }

  // ============ NOTIFICATIONS ============

  /** Every notification of a user, in table order. */
  function NotificationsOf(ns: seq<Notification>, userId: int): (r: seq<Notification>)
    ensures forall n :: n in r <==> n in ns && n.userId == userId
    ensures forall n :: multiset(r)[n] == if n.userId == userId then multiset(ns)[n] else 0
  {
    Filter(ns, (n: Notification) => n.userId == userId)
  }

  /** The `limit` newest of some notifications, newest first. */
  function Newest(ns: seq<Notification>, limit: nat): (r: seq<Notification>)
    ensures |r| == if |ns| <= limit then |ns| else limit
    ensures multiset(r) <= multiset(ns)
    ensures forall i, j :: 0 <= i < j < |r| ==> r[i].createdAt >= r[j].createdAt
    ensures forall n, x :: n in ns && n !in r && x in r ==> n.createdAt <= x.createdAt
  {
    var key := (n: Notification) => -n.createdAt;
    var r := Take(SortBy(ns, key), limit);
    TakeSortedWithin(ns, key, limit);
    forall n, x | n in ns && n !in r && x in r ensures n.createdAt <= x.createdAt {
      TakeSortedKeepsSmallest(ns, key, limit, n, x);
    }
    r
  }

  /** The `limit` newest notifications of a user: as many as the user has, up to
      `limit` (50 when the caller leaves it out), each at most as often as stored. */
  function NotificationsByUser(ns: seq<Notification>, userId: int, limit: Option<nat>): (r: seq<Notification>)
    ensures var n := limit.GetOr(DefaultLimit);
            |r| == if |NotificationsOf(ns, userId)| <= n then |NotificationsOf(ns, userId)| else n
    ensures forall n :: multiset(r)[n] <= if n.userId == userId then multiset(ns)[n] else 0
    ensures forall n :: n in r ==> n in ns && n.userId == userId
    ensures forall i, j :: 0 <= i < j < |r| ==> r[i].createdAt >= r[j].createdAt
    ensures forall n, x :: n in ns && n.userId == userId && n !in r && x in r ==> n.createdAt <= x.createdAt
  {
    var mine := NotificationsOf(ns, userId);
    var r := Newest(mine, limit.GetOr(DefaultLimit));
    assert forall n :: multiset(r)[n] <= if n.userId == userId then multiset(ns)[n] else 0 by {
      forall n ensures multiset(r)[n] <= if n.userId == userId then multiset(ns)[n] else 0 {
        assert multiset(r)[n] <= multiset(mine)[n];
      }
    }
    assert forall n :: n in r ==> n in mine by {
      forall n | n in r ensures n in mine {
        assert multiset(r)[n] > 0;
      }
    }
    r
  }

  function FindNotification(ns: seq<Notification>, id: int): (r: Option<Notification>)
    ensures r.None? <==> forall n :: n in ns ==> n.id != id
    ensures r.Some? ==> r.value in ns && r.value.id == id
  {
    First(ns, (n: Notification) => n.id == id)
  }

  /** A user's unread notifications, newest first. */
  function UnreadNotifications(ns: seq<Notification>, userId: int): (r: seq<Notification>)
    ensures forall n :: multiset(r)[n] == if n.userId == userId && !n.isRead then multiset(ns)[n] else 0
    ensures forall i, j :: 0 <= i < j < |r| ==> r[i].createdAt >= r[j].createdAt
  {
    SortBy(Filter(ns, (n: Notification) => n.userId == userId && !n.isRead), (n: Notification) => -n.createdAt)
  }

  // ============ VOLUME AND STATUS HISTORY ============

  /** A number's volume records since `startDate`, oldest first. */
  function VolumeHistory(events: seq<Event>, phoneNumberId: int, startDate: Timestamp): (r: seq<Event>)
    ensures forall e :: multiset(r)[e] ==
              if e.phoneNumberId == phoneNumberId && e.eventType == VolumeRecord && e.eventDate >= startDate
              then multiset(events)[e] else 0
    ensures forall i, j :: 0 <= i < j < |r| ==> r[i].eventDate <= r[j].eventDate
  {
    SortBy(Filter(events, (e: Event) =>
             e.phoneNumberId == phoneNumberId && e.eventType == VolumeRecord && e.eventDate >= startDate),
           (e: Event) => e.eventDate)
  }

  /** A number's status changes, oldest first. */
  function StatusHistory(events: seq<Event>, phoneNumberId: int): (r: seq<Event>)
    ensures forall e :: multiset(r)[e] ==
              if e.phoneNumberId == phoneNumberId && e.eventType == StatusChange then multiset(events)[e] else 0
    ensures forall i, j :: 0 <= i < j < |r| ==> r[i].eventDate <= r[j].eventDate
  {
    SortBy(Filter(events, (e: Event) => e.phoneNumberId == phoneNumberId && e.eventType == StatusChange),
           (e: Event) => e.eventDate)
  }
}
