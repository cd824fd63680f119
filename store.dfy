/** The database as one object: a table per entity, each a sequence of rows the
    write operations reassign, and a per-table auto-increment counter that hands
    out the id of the next inserted row. */
module Storage {
  import opened Wrappers
  import opened Schema
  import opened Tables
  import opened Queries
  import opened Updates

  class Store {
    var operations: seq<Operation>
    var phoneNumbers: seq<PhoneNumber>
    var events: seq<Event>
    var tags: seq<Tag>
    var phoneNumberTags: seq<PhoneNumberTag>
    var alarms: seq<RestrictionAlarm>
    var notifications: seq<Notification>

    var nextOperationId: int
    var nextPhoneNumberId: int
    var nextEventId: int
    var nextTagId: int
    var nextLinkId: int
    var nextAlarmId: int
    var nextNotificationId: int

    /** Every stored id was handed out by its table's counter, so the counter's
        value is fresh. */
    ghost predicate Valid()
      reads this
    {
      && OperationIdsFresh() && PhoneNumberIdsFresh() && EventIdsFresh() && TagIdsFresh()
      && LinkIdsFresh() && AlarmIdsFresh() && NotificationIdsFresh()
    }

    ghost predicate OperationIdsFresh()
      reads this`operations, this`nextOperationId
    {
      forall o :: o in operations ==> o.id < nextOperationId
    }

    ghost predicate PhoneNumberIdsFresh()
      reads this`phoneNumbers, this`nextPhoneNumberId
    {
      forall n :: n in phoneNumbers ==> n.id < nextPhoneNumberId
    }

    ghost predicate EventIdsFresh()
      reads this`events, this`nextEventId
    {
      forall e :: e in events ==> e.id < nextEventId
    }

    ghost predicate TagIdsFresh()
      reads this`tags, this`nextTagId
    {
      forall t :: t in tags ==> t.id < nextTagId
    }

    ghost predicate LinkIdsFresh()
      reads this`phoneNumberTags, this`nextLinkId
    {
      forall l :: l in phoneNumberTags ==> l.id < nextLinkId
    }

    ghost predicate AlarmIdsFresh()
      reads this`alarms, this`nextAlarmId
    {
      forall a :: a in alarms ==> a.id < nextAlarmId
    }

    ghost predicate NotificationIdsFresh()
      reads this`notifications, this`nextNotificationId
    {
      forall n :: n in notifications ==> n.id < nextNotificationId
    }

    /** An empty database; every table's ids start at 1. */
    constructor()
      ensures Valid()
      ensures operations == [] && phoneNumbers == [] && events == [] && tags == []
      ensures phoneNumberTags == [] && alarms == [] && notifications == []
      ensures nextOperationId == 1 && nextPhoneNumberId == 1 && nextEventId == 1 && nextTagId == 1
      ensures nextLinkId == 1 && nextAlarmId == 1 && nextNotificationId == 1
    {
      operations, phoneNumbers, events, tags := [], [], [], [];
      phoneNumberTags, alarms, notifications := [], [], [];
      nextOperationId, nextPhoneNumberId, nextEventId, nextTagId := 1, 1, 1, 1;
      nextLinkId, nextAlarmId, nextNotificationId := 1, 1, 1;
    }

    // ============ OPERATIONS ============

    /** Inserts the row with the defaults filled in and fetches it back by its new id. */
    method CreateOperation(data: NewOperation, now: Timestamp) returns (r: Option<Operation>)
      requires Valid()
      modifies this`operations, this`nextOperationId
      ensures Valid()
      ensures operations == old(operations) + [OperationRow(old(nextOperationId), data, now)]
      ensures nextOperationId == old(nextOperationId) + 1
      ensures r == Some(OperationRow(old(nextOperationId), data, now))
    {
      var id := nextOperationId;
      operations := operations + [OperationRow(id, data, now)];
      nextOperationId := id + 1;
      r := FindOperation(operations, id);
    }

    /** Deletes the operation row only: its numbers keep pointing at it. */
    method DeleteOperation(id: int) returns (success: bool)
      requires Valid()
      modifies this`operations
      ensures Valid()
      ensures operations == Filter(old(operations), (o: Operation) => o.id != id)
      ensures forall o :: o in operations ==> o.id != id
      ensures success
    {
      operations := Filter(operations, (o: Operation) => o.id != id);
      success := true;
    }

    // ============ PHONE NUMBERS ============

    method CreatePhoneNumber(data: NewPhoneNumber, now: Timestamp) returns (r: Option<PhoneNumber>)
      requires Valid()
      modifies this`phoneNumbers, this`nextPhoneNumberId
      ensures Valid()
      ensures phoneNumbers == old(phoneNumbers) + [PhoneNumberRow(old(nextPhoneNumberId), data, now)]
      ensures nextPhoneNumberId == old(nextPhoneNumberId) + 1
      ensures r == Some(PhoneNumberRow(old(nextPhoneNumberId), data, now))
    {
      var id := nextPhoneNumberId;
      phoneNumbers := phoneNumbers + [PhoneNumberRow(id, data, now)];
      nextPhoneNumberId := id + 1;
      r := FindPhoneNumber(phoneNumbers, id);
    }

    /** The cascading delete: the number's events, then its tag links, then its
        alarms, then the number itself. Reports success whether or not the number
        existed; operations, tags and notifications are untouched. */
    method DeletePhoneNumber(id: int) returns (success: bool)
      requires Valid()
      modifies this`events, this`phoneNumberTags, this`alarms, this`phoneNumbers
      ensures Valid()
      ensures events == Filter(old(events), (e: Event) => e.phoneNumberId != id)
      ensures phoneNumberTags == Filter(old(phoneNumberTags), (l: PhoneNumberTag) => l.phoneNumberId != id)
      ensures alarms == Filter(old(alarms), (a: RestrictionAlarm) => a.phoneNumberId != id)
      ensures phoneNumbers == Filter(old(phoneNumbers), (n: PhoneNumber) => n.id != id)
      ensures forall e :: e in events ==> e.phoneNumberId != id
      ensures forall l :: l in phoneNumberTags ==> l.phoneNumberId != id
      ensures forall a :: a in alarms ==> a.phoneNumberId != id
      ensures forall n :: n in phoneNumbers ==> n.id != id
      ensures forall e: Event :: e.phoneNumberId != id ==> multiset(events)[e] == multiset(old(events))[e]
      ensures forall a: RestrictionAlarm :: a.phoneNumberId != id ==> multiset(alarms)[a] == multiset(old(alarms))[a]
      ensures success
    {
      DeleteEventsOf(id);
      DeleteLinksOf(id);
      DeleteAlarmsOf(id);
      DeleteNumberRow(id);
      success := true;
    }

    /** Last step of the cascade: the number's own row. */
    method DeleteNumberRow(id: int)
      requires Valid()
      modifies this`phoneNumbers
      ensures Valid()
      ensures phoneNumbers == Filter(old(phoneNumbers), (n: PhoneNumber) => n.id != id)
      ensures forall n :: n in phoneNumbers ==> n.id != id
    {
      phoneNumbers := Filter(phoneNumbers, (n: PhoneNumber) => n.id != id);
    }

    /** First step of the cascade: the number's events. */
    method DeleteEventsOf(phoneNumberId: int)
      requires Valid()
      modifies this`events
      ensures Valid()
      ensures events == Filter(old(events), (e: Event) => e.phoneNumberId != phoneNumberId)
      ensures forall e :: e in events ==> e.phoneNumberId != phoneNumberId
      ensures forall e: Event :: e.phoneNumberId != phoneNumberId ==> multiset(events)[e] == multiset(old(events))[e]
    {
      events := Filter(events, (e: Event) => e.phoneNumberId != phoneNumberId);
    }

    /** Second step of the cascade: the number's tag links. */
    method DeleteLinksOf(phoneNumberId: int)
      requires Valid()
      modifies this`phoneNumberTags
      ensures Valid()
      ensures phoneNumberTags == Filter(old(phoneNumberTags), (l: PhoneNumberTag) => l.phoneNumberId != phoneNumberId)
      ensures forall l :: l in phoneNumberTags ==> l.phoneNumberId != phoneNumberId
    {
      phoneNumberTags := Filter(phoneNumberTags, (l: PhoneNumberTag) => l.phoneNumberId != phoneNumberId);
    }

    /** Third step of the cascade: the number's alarms. */
    method DeleteAlarmsOf(phoneNumberId: int)
      requires Valid()
      modifies this`alarms
      ensures Valid()
      ensures alarms == Filter(old(alarms), (a: RestrictionAlarm) => a.phoneNumberId != phoneNumberId)
      ensures forall a :: a in alarms ==> a.phoneNumberId != phoneNumberId
      ensures forall a: RestrictionAlarm :: a.phoneNumberId != phoneNumberId ==> multiset(alarms)[a] == multiset(old(alarms))[a]
    {
      alarms := Filter(alarms, (a: RestrictionAlarm) => a.phoneNumberId != phoneNumberId);
    }

    // ============ EVENTS ============

    method CreateEvent(data: NewEvent, now: Timestamp) returns (r: Option<Event>)
      requires Valid()
      modifies this`events, this`nextEventId
      ensures Valid()
      ensures events == old(events) + [EventRow(old(nextEventId), data, now)]
      ensures nextEventId == old(nextEventId) + 1
      ensures r == Some(EventRow(old(nextEventId), data, now))
    {
      var id := nextEventId;
      events := events + [EventRow(id, data, now)];
      nextEventId := id + 1;
      r := FindEvent(events, id);
    }

    method DeleteEvent(id: int) returns (success: bool)
      requires Valid()
      modifies this`events
      ensures Valid()
      ensures events == Filter(old(events), (e: Event) => e.id != id)
      ensures forall e :: e in events ==> e.id != id
      ensures success
    {
      events := Filter(events, (e: Event) => e.id != id);
      success := true;
    }

    // ============ TAGS ============

    method CreateTag(data: NewTag, now: Timestamp) returns (r: Option<Tag>)
      requires Valid()
      modifies this`tags, this`nextTagId
      ensures Valid()
      ensures tags == old(tags) + [TagRow(old(nextTagId), data, now)]
      ensures nextTagId == old(nextTagId) + 1
      ensures r == Some(TagRow(old(nextTagId), data, now))
    {
      var id := nextTagId;
      tags := tags + [TagRow(id, data, now)];
      nextTagId := id + 1;
      r := FindTag(tags, id);
    }

    /** Removes the tag's links, then the tag; no number lists it afterwards. */
    method DeleteTag(id: int) returns (success: bool)
      requires Valid()
      modifies this`phoneNumberTags, this`tags
      ensures Valid()
      ensures phoneNumberTags == Filter(old(phoneNumberTags), (l: PhoneNumberTag) => l.tagId != id)
      ensures tags == Filter(old(tags), (t: Tag) => t.id != id)
      ensures forall l :: l in phoneNumberTags ==> l.tagId != id
      ensures forall t :: t in tags ==> t.id != id
      ensures forall pid, t :: t in TagsForPhoneNumber(tags, phoneNumberTags, pid) ==> t.id != id
      ensures success
    {
      DeleteLinksToTag(id);
      DeleteTagRow(id);
      forall pid ensures forall t :: t in TagsForPhoneNumber(tags, phoneNumberTags, pid) ==> t.id != id {
        TagsForPhoneNumberMembers(tags, phoneNumberTags, pid);
      }
      success := true;
    }

    /** First step of deleting a tag: its links. */
    method DeleteLinksToTag(tagId: int)
      requires Valid()
      modifies this`phoneNumberTags
      ensures Valid()
      ensures phoneNumberTags == Filter(old(phoneNumberTags), (l: PhoneNumberTag) => l.tagId != tagId)
      ensures forall l :: l in phoneNumberTags ==> l.tagId != tagId
    {
      phoneNumberTags := Filter(phoneNumberTags, (l: PhoneNumberTag) => l.tagId != tagId);
    }

    /** Second step of deleting a tag: its row. */
    method DeleteTagRow(id: int)
      requires Valid()
      modifies this`tags
      ensures Valid()
      ensures tags == Filter(old(tags), (t: Tag) => t.id != id)
      ensures forall t :: t in tags ==> t.id != id
    {
      tags := Filter(tags, (t: Tag) => t.id != id);
    }

    /** Links a tag to a number with a fresh link id, without looking for an
        existing link: linking twice lists the tag twice. */
    method AddTagToPhoneNumber(phoneNumberId: int, tagId: int, now: Timestamp) returns (success: bool)
      requires Valid()
      modifies this`phoneNumberTags, this`nextLinkId
      ensures Valid()
      ensures phoneNumberTags == old(phoneNumberTags) + [PhoneNumberTag(old(nextLinkId), phoneNumberId, tagId, now)]
      ensures nextLinkId == old(nextLinkId) + 1
      ensures TagsForPhoneNumber(tags, phoneNumberTags, phoneNumberId) ==
              TagsForPhoneNumber(tags, old(phoneNumberTags), phoneNumberId) + TagsWithId(tags, tagId)
      ensures forall pid :: pid != phoneNumberId ==>
        TagsForPhoneNumber(tags, phoneNumberTags, pid) == TagsForPhoneNumber(tags, old(phoneNumberTags), pid)
      ensures success
    {
      var link := PhoneNumberTag(nextLinkId, phoneNumberId, tagId, now);
      phoneNumberTags := phoneNumberTags + [link];
      nextLinkId := nextLinkId + 1;
      assert TagsForPhoneNumber(tags, phoneNumberTags, phoneNumberId) ==
             TagsForPhoneNumber(tags, old(phoneNumberTags), phoneNumberId) + TagsWithId(tags, tagId) by {
        AddLinkEffect(tags, old(phoneNumberTags), link);
      }
      assert forall pid :: pid != phoneNumberId ==>
        TagsForPhoneNumber(tags, phoneNumberTags, pid) == TagsForPhoneNumber(tags, old(phoneNumberTags), pid) by {
        AddLinkEffect(tags, old(phoneNumberTags), link);
      }
      success := true;
    }

    /** Deletes every link between the number and the tag. */
    method RemoveTagFromPhoneNumber(phoneNumberId: int, tagId: int) returns (success: bool)
      requires Valid()
      modifies this`phoneNumberTags
      ensures Valid()
      ensures phoneNumberTags ==
              Filter(old(phoneNumberTags), (l: PhoneNumberTag) => !(l.phoneNumberId == phoneNumberId && l.tagId == tagId))
      ensures forall t :: t in TagsForPhoneNumber(tags, phoneNumberTags, phoneNumberId) ==> t.id != tagId
      ensures forall l :: l in old(phoneNumberTags) && (l.phoneNumberId != phoneNumberId || l.tagId != tagId) ==>
        l in phoneNumberTags
      ensures success
    {
      phoneNumberTags := Filter(phoneNumberTags, (l: PhoneNumberTag) => !(l.phoneNumberId == phoneNumberId && l.tagId == tagId));
      assert forall t :: t in TagsForPhoneNumber(tags, phoneNumberTags, phoneNumberId) ==> t.id != tagId by {
        TagsForPhoneNumberMembers(tags, phoneNumberTags, phoneNumberId);
      }
      success := true;
    }

    // ============ RESTRICTION ALARMS ============

    /** Inserts the alarm; with the defaults it is active, not notified, and so
        in its user's active queue. */
    method CreateAlarm(data: NewRestrictionAlarm, now: Timestamp) returns (r: Option<RestrictionAlarm>)
      requires Valid()
      modifies this`alarms, this`nextAlarmId
      ensures Valid()
      ensures alarms == old(alarms) + [AlarmRow(old(nextAlarmId), data, now)]
      ensures nextAlarmId == old(nextAlarmId) + 1
      ensures r == Some(AlarmRow(old(nextAlarmId), data, now))
      ensures data.isActive.None? && data.wasNotified.None? ==> r.value in ActiveAlarms(alarms, data.userId)
    {
      var id := nextAlarmId;
      var row := AlarmRow(id, data, now);
      if data.isActive.None? && data.wasNotified.None? {
        NewAlarmIsQueued(alarms, id, data, now, now);
      }
      alarms := alarms + [row];
      nextAlarmId := id + 1;
      r := FindAlarm(alarms, id);
    }

    method DeleteAlarm(id: int) returns (success: bool)
      requires Valid()
      modifies this`alarms
      ensures Valid()
      ensures alarms == Filter(old(alarms), (a: RestrictionAlarm) => a.id != id)
      ensures forall a :: a in alarms ==> a.id != id
      ensures success
    {
      alarms := Filter(alarms, (a: RestrictionAlarm) => a.id != id);
      success := true;
    }

    /** The one-way transition to notified, then the alarm fetched back: absent
        exactly when no alarm has the id. */
    method MarkAlarmAsNotified(id: int, now: Timestamp) returns (r: Option<RestrictionAlarm>)
      requires Valid()
      modifies this`alarms
      ensures Valid()
      ensures alarms == MarkNotified(old(alarms), id, now)
      ensures r.None? <==> forall a :: a in old(alarms) ==> a.id != id
      ensures r == FindAlarm(alarms, id)
      ensures r.Some? ==> r.value in alarms
      ensures r.Some? ==> r.value.id == id && r.value.wasNotified && !r.value.isActive && r.value.notifiedAt == Some(now)
      ensures forall u, a :: a in ActiveAlarms(alarms, u) ==> a.id != id
      ensures forall t, a :: a in AlarmsToNotify(alarms, t) ==> a.id != id
    {
      MarkNotifiedKeepsIds(alarms, id, now, nextAlarmId);
      MarkNotifiedFetch(alarms, id, now);
      forall u, t {
        MarkNotifiedLeavesQueues(alarms, id, now, u, t);
      }
      alarms := MarkNotified(alarms, id, now);
      r := FindAlarm(alarms, id);
    }

    // ============ NOTIFICATIONS ============

    method CreateNotification(data: NewNotification, now: Timestamp) returns (r: Option<Notification>)
      requires Valid()
      modifies this`notifications, this`nextNotificationId
      ensures Valid()
      ensures notifications == old(notifications) + [NotificationRow(old(nextNotificationId), data, now)]
      ensures nextNotificationId == old(nextNotificationId) + 1
      ensures r == Some(NotificationRow(old(nextNotificationId), data, now))
    {
      var id := nextNotificationId;
      notifications := notifications + [NotificationRow(id, data, now)];
      nextNotificationId := id + 1;
      r := FindNotification(notifications, id);
    }

    method MarkNotificationAsRead(id: int) returns (success: bool)
      requires Valid()
      modifies this`notifications
      ensures Valid()
      ensures notifications == MarkRead(old(notifications), id)
      ensures forall u, n :: n in UnreadNotifications(notifications, u) ==> n.id != id
      ensures success
    {
      MarkReadKeepsIds(notifications, id, nextNotificationId);
      forall u {
        MarkReadLeavesUnread(notifications, id, u);
      }
      notifications := MarkRead(notifications, id);
      success := true;
    }

    /** Marks every notification of the user read; other users' rows are unchanged. */
    method MarkAllNotificationsAsRead(userId: int) returns (success: bool)
      requires Valid()
      modifies this`notifications
      ensures Valid()
      ensures notifications == MarkAllRead(old(notifications), userId)
      ensures UnreadNotifications(notifications, userId) == []
      ensures forall i :: 0 <= i < |notifications| && notifications[i].userId != userId ==>
        notifications[i] == old(notifications)[i]
      ensures success
    {
      MarkAllReadKeepsIds(notifications, userId, nextNotificationId);
      MarkAllReadEmptiesUnread(notifications, userId);
      notifications := MarkAllRead(notifications, userId);
      success := true;
    }

    method DeleteNotification(id: int) returns (success: bool)
      requires Valid()
      modifies this`notifications
      ensures Valid()
      ensures notifications == Filter(old(notifications), (n: Notification) => n.id != id)
      ensures forall n :: n in notifications ==> n.id != id
      ensures success
    {
      notifications := Filter(notifications, (n: Notification) => n.id != id);
      success := true;
    }
  }
}
