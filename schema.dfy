/** Row shapes, enum vocabularies and column defaults of the chip-tracking schema.
    Timestamps are milliseconds since the Unix epoch, as `Date.getTime()` reports them. */
module Schema {
  import opened Wrappers

  type Timestamp = int

  // ---------------------------------------------------------------------------
  // Vocabularies
  // ---------------------------------------------------------------------------

  /** Lifecycle status of a phone number (the `status` column). */
  datatype Status = Active | Warming | Blocked | Analysis | Off | Restricted | Unknown

  /** The literal strings the `status` column stores, in declaration order. */
  const StatusVocabulary: seq<string> :=
    ["active", "warming", "blocked", "analysis", "off", "restricted", "unknown"]

  /** Every status, in declaration order; the dashboard has one bucket per entry. */
  const AllStatuses: seq<Status> := [Active, Warming, Blocked, Analysis, Off, Restricted, Unknown]

  /** The status a phone number gets when the insert leaves it out. */
  const DefaultStatus: Status := Unknown

  /** The string a status is stored as. */
  function StatusName(s: Status): (name: string)
    ensures name in StatusVocabulary
    ensures ParseStatus(name) == Some(s)
  {
    match s
    case Active => "active"
    case Warming => "warming"
    case Blocked => "blocked"
    case Analysis => "analysis"
    case Off => "off"
    case Restricted => "restricted"
    case Unknown => "unknown"
  }

  /** The status a stored string denotes; strings outside the vocabulary denote none. */
  function ParseStatus(name: string): (r: Option<Status>)
    ensures r.Some? <==> name in StatusVocabulary
  {
    if name == "active" then Some(Active)
    else if name == "warming" then Some(Warming)
    else if name == "blocked" then Some(Blocked)
    else if name == "analysis" then Some(Analysis)
    else if name == "off" then Some(Off)
    else if name == "restricted" then Some(Restricted)
    else if name == "unknown" then Some(Unknown)
    else None
  }

  /** Parsing only ever inverts naming: the vocabulary and the enum are in one-to-one correspondence. */
  lemma ParseStatusInvertsName(name: string, s: Status)
    requires ParseStatus(name) == Some(s)
    ensures StatusName(s) == name
  {
  }

  /** The status vocabulary has exactly seven distinct values, every status among them. */
  lemma StatusVocabularyExact()
    ensures |AllStatuses| == |StatusVocabulary| == 7
    ensures forall i, j :: 0 <= i < j < 7 ==> AllStatuses[i] != AllStatuses[j]
    ensures forall i :: 0 <= i < 7 ==> StatusName(AllStatuses[i]) == StatusVocabulary[i]
    ensures forall s: Status :: s in AllStatuses
  {
    forall s: Status ensures s in AllStatuses {
      match s
      case Active => assert AllStatuses[0] == s;
      case Warming => assert AllStatuses[1] == s;
      case Blocked => assert AllStatuses[2] == s;
      case Analysis => assert AllStatuses[3] == s;
      case Off => assert AllStatuses[4] == s;
      case Restricted => assert AllStatuses[5] == s;
      case Unknown => assert AllStatuses[6] == s;
    }
  }

  /** Quality ranking of a number, S best and D worst (the `tier` column). */
  datatype Tier = S | A | B | C | D

  const DefaultTier: Tier := B

  /** What happened to a number (the `eventType` column). */
  datatype EventType =
    | Block | Unblock | Restriction | Unrestriction | StatusChange | VolumeRecord
    | Warning | Note | Activation | IpChange | Restart | UserChange

  /** The literal strings the `eventType` column stores, in declaration order. */
  const EventTypeVocabulary: seq<string> :=
    ["block", "unblock", "restriction", "unrestriction", "status_change", "volume_record",
     "warning", "note", "activation", "ip_change", "restart", "user_change"]

  /** The string an event type is stored as. */
  function EventTypeName(t: EventType): (name: string)
    ensures name in EventTypeVocabulary
    ensures ParseEventType(name) == Some(t)
  {
    match t
    case Block => "block"
    case Unblock => "unblock"
    case Restriction => "restriction"
    case Unrestriction => "unrestriction"
    case StatusChange => "status_change"
    case VolumeRecord => "volume_record"
    case Warning => "warning"
    case Note => "note"
    case Activation => "activation"
    case IpChange => "ip_change"
    case Restart => "restart"
    case UserChange => "user_change"
  }

  /** The event type a stored string denotes; strings outside the vocabulary denote none. */
  function ParseEventType(name: string): (r: Option<EventType>)
    ensures r.Some? <==> name in EventTypeVocabulary
  {
    if name == "block" then Some(Block)
    else if name == "unblock" then Some(Unblock)
    else if name == "restriction" then Some(Restriction)
    else if name == "unrestriction" then Some(Unrestriction)
    else if name == "status_change" then Some(StatusChange)
    else if name == "volume_record" then Some(VolumeRecord)
    else if name == "warning" then Some(Warning)
    else if name == "note" then Some(Note)
    else if name == "activation" then Some(Activation)
    else if name == "ip_change" then Some(IpChange)
    else if name == "restart" then Some(Restart)
    else if name == "user_change" then Some(UserChange)
    else None
  }

  /** Kind of a delivered notification (the `type` column). */
  datatype NotificationType =
    | RestrictionReturn | BlockAlert | StatusChangeNotice | System
    | IpRepeated | Inactive48h | HighVolume | RiskAlert

  // ---------------------------------------------------------------------------
  // Rows and insert records. An insert field of type Option<T> for a column
  // with a default is "left out" when None; the default is filled in.
  // ---------------------------------------------------------------------------

  datatype Operation = Operation(
    id: int, name: string, description: Option<string>, userId: int,
    createdAt: Timestamp, updatedAt: Timestamp)

  datatype NewOperation = NewOperation(
    name: string, description: Option<string>, userId: int,
    createdAt: Option<Timestamp>, updatedAt: Option<Timestamp>)

  datatype PhoneNumber = PhoneNumber(
    id: int, number: string, operator: Option<string>, deviceType: Option<string>,
    device: Option<string>, status: Status, accountType: Option<string>,
    purpose: Option<string>, notes: Option<string>, location: Option<string>,
    region: Option<string>, lastIp: Option<string>, ipChangeFrequency: Option<int>,
    owner: Option<string>, purchaseBatch: Option<string>, activationDate: Option<Timestamp>,
    riskScore: Option<int>, tier: Option<Tier>,
    totalMessages: Option<int>, totalBlocks: Option<int>, totalRestrictions: Option<int>,
    avgRecoveryHours: Option<int>, lastBlockDate: Option<Timestamp>,
    lastRestrictionDate: Option<Timestamp>,
    addedAt: Timestamp, updatedAt: Timestamp, userId: int, operationId: int)

  datatype NewPhoneNumber = NewPhoneNumber(
    number: string, operator: Option<string>, deviceType: Option<string>,
    device: Option<string>, status: Option<Status>, accountType: Option<string>,
    purpose: Option<string>, notes: Option<string>, location: Option<string>,
    region: Option<string>, lastIp: Option<string>, ipChangeFrequency: Option<int>,
    owner: Option<string>, purchaseBatch: Option<string>, activationDate: Option<Timestamp>,
    riskScore: Option<int>, tier: Option<Tier>,
    totalMessages: Option<int>, totalBlocks: Option<int>, totalRestrictions: Option<int>,
    avgRecoveryHours: Option<int>, lastBlockDate: Option<Timestamp>,
    lastRestrictionDate: Option<Timestamp>,
    addedAt: Option<Timestamp>, updatedAt: Option<Timestamp>, userId: int, operationId: int)

  datatype Event = Event(
    id: int, phoneNumberId: int, eventType: EventType,
    previousStatus: Option<string>, newStatus: Option<string>, messageVolume: Option<int>,
    description: Option<string>, metadata: Option<string>,
    eventDate: Timestamp, createdAt: Timestamp)

  datatype NewEvent = NewEvent(
    phoneNumberId: int, eventType: EventType,
    previousStatus: Option<string>, newStatus: Option<string>, messageVolume: Option<int>,
    description: Option<string>, metadata: Option<string>,
    eventDate: Timestamp, createdAt: Option<Timestamp>)

  datatype Tag = Tag(id: int, name: string, color: Option<string>, userId: int, createdAt: Timestamp)

  datatype NewTag = NewTag(name: string, color: Option<string>, userId: int, createdAt: Option<Timestamp>)

  /** A row of the junction table linking numbers and tags. */
  datatype PhoneNumberTag = PhoneNumberTag(id: int, phoneNumberId: int, tagId: int, createdAt: Timestamp)

  datatype RestrictionAlarm = RestrictionAlarm(
    id: int, phoneNumberId: int, userId: int,
    restrictionStartTime: Timestamp, expectedReturnTime: Timestamp, notifyAt: Timestamp,
    isActive: bool, wasNotified: bool, notifiedAt: Option<Timestamp>, notes: Option<string>,
    createdAt: Timestamp, updatedAt: Timestamp)

  datatype NewRestrictionAlarm = NewRestrictionAlarm(
    phoneNumberId: int, userId: int,
    restrictionStartTime: Timestamp, expectedReturnTime: Timestamp, notifyAt: Timestamp,
    isActive: Option<bool>, wasNotified: Option<bool>, notifiedAt: Option<Timestamp>,
    notes: Option<string>, createdAt: Option<Timestamp>, updatedAt: Option<Timestamp>)

  datatype Notification = Notification(
    id: int, userId: int, phoneNumberId: Option<int>, alarmId: Option<int>,
    notificationType: NotificationType, title: string, message: string,
    isRead: bool, playSound: bool, createdAt: Timestamp)

  datatype NewNotification = NewNotification(
    userId: int, phoneNumberId: Option<int>, alarmId: Option<int>,
    notificationType: NotificationType, title: string, message: string,
    isRead: Option<bool>, playSound: Option<bool>, createdAt: Option<Timestamp>)

  // ---------------------------------------------------------------------------
  // The row the database stores for an insert: the generated id, the supplied
  // values, and the column defaults for what was left out (`now` for
  // defaultNow() columns).
  // ---------------------------------------------------------------------------

  function OperationRow(id: int, data: NewOperation, now: Timestamp): (row: Operation)
    ensures row.id == id && row.name == data.name && row.userId == data.userId
    ensures row.description == data.description
    ensures data.createdAt.None? ==> row.createdAt == now
    ensures data.createdAt.Some? ==> row.createdAt == data.createdAt.value
    ensures data.updatedAt.None? ==> row.updatedAt == now
    ensures data.updatedAt.Some? ==> row.updatedAt == data.updatedAt.value
  {
    Operation(id, data.name, data.description, data.userId,
              data.createdAt.GetOr(now), data.updatedAt.GetOr(now))
  }

  function PhoneNumberRow(id: int, data: NewPhoneNumber, now: Timestamp): (row: PhoneNumber)
    ensures row.id == id && row.number == data.number
    ensures row.userId == data.userId && row.operationId == data.operationId
    ensures row.operator == data.operator && row.deviceType == data.deviceType && row.device == data.device
    ensures row.accountType == data.accountType && row.purpose == data.purpose && row.notes == data.notes
    ensures row.location == data.location && row.region == data.region && row.lastIp == data.lastIp
    ensures row.ipChangeFrequency == data.ipChangeFrequency && row.owner == data.owner
    ensures row.purchaseBatch == data.purchaseBatch && row.activationDate == data.activationDate
    ensures row.lastBlockDate == data.lastBlockDate && row.lastRestrictionDate == data.lastRestrictionDate
    ensures row.avgRecoveryHours == data.avgRecoveryHours
    ensures data.status.None? ==> row.status == DefaultStatus
    ensures data.status.Some? ==> row.status == data.status.value
    ensures data.riskScore.None? ==> row.riskScore == Some(50)
    ensures data.riskScore.Some? ==> row.riskScore == data.riskScore
    ensures data.tier.None? ==> row.tier == Some(DefaultTier)
    ensures data.tier.Some? ==> row.tier == data.tier
    ensures data.totalMessages.None? ==> row.totalMessages == Some(0)
    ensures data.totalMessages.Some? ==> row.totalMessages == data.totalMessages
    ensures data.totalBlocks.None? ==> row.totalBlocks == Some(0)
    ensures data.totalBlocks.Some? ==> row.totalBlocks == data.totalBlocks
    ensures data.totalRestrictions.None? ==> row.totalRestrictions == Some(0)
    ensures data.totalRestrictions.Some? ==> row.totalRestrictions == data.totalRestrictions
    ensures data.addedAt.None? ==> row.addedAt == now
    ensures data.addedAt.Some? ==> row.addedAt == data.addedAt.value
    ensures data.updatedAt.None? ==> row.updatedAt == now
    ensures data.updatedAt.Some? ==> row.updatedAt == data.updatedAt.value
  {
    PhoneNumber(
      id, data.number, data.operator, data.deviceType, data.device,
      data.status.GetOr(DefaultStatus), data.accountType, data.purpose, data.notes,
      data.location, data.region, data.lastIp, data.ipChangeFrequency, data.owner,
      data.purchaseBatch, data.activationDate,
      Some(data.riskScore.GetOr(50)), Some(data.tier.GetOr(DefaultTier)),
      Some(data.totalMessages.GetOr(0)), Some(data.totalBlocks.GetOr(0)),
      Some(data.totalRestrictions.GetOr(0)),
      data.avgRecoveryHours, data.lastBlockDate, data.lastRestrictionDate,
      data.addedAt.GetOr(now), data.updatedAt.GetOr(now), data.userId, data.operationId)
  }

  function EventRow(id: int, data: NewEvent, now: Timestamp): (row: Event)
    ensures row.id == id && row.phoneNumberId == data.phoneNumberId
    ensures row.eventType == data.eventType && row.eventDate == data.eventDate
    ensures row.messageVolume == data.messageVolume
    ensures row.previousStatus == data.previousStatus && row.newStatus == data.newStatus
    ensures row.description == data.description && row.metadata == data.metadata
    ensures data.createdAt.None? ==> row.createdAt == now
    ensures data.createdAt.Some? ==> row.createdAt == data.createdAt.value
  {
    Event(id, data.phoneNumberId, data.eventType, data.previousStatus, data.newStatus,
          data.messageVolume, data.description, data.metadata, data.eventDate,
          data.createdAt.GetOr(now))
  }

  function TagRow(id: int, data: NewTag, now: Timestamp): (row: Tag)
    ensures row.id == id && row.name == data.name && row.color == data.color
    ensures row.userId == data.userId
    ensures data.createdAt.None? ==> row.createdAt == now
    ensures data.createdAt.Some? ==> row.createdAt == data.createdAt.value
  {
    Tag(id, data.name, data.color, data.userId, data.createdAt.GetOr(now))
  }

  function AlarmRow(id: int, data: NewRestrictionAlarm, now: Timestamp): (row: RestrictionAlarm)
    ensures row.id == id && row.phoneNumberId == data.phoneNumberId && row.userId == data.userId
    ensures row.restrictionStartTime == data.restrictionStartTime
    ensures row.expectedReturnTime == data.expectedReturnTime && row.notifyAt == data.notifyAt
    ensures data.isActive.None? ==> row.isActive
    ensures data.isActive.Some? ==> row.isActive == data.isActive.value
    ensures data.wasNotified.None? ==> !row.wasNotified
    ensures data.wasNotified.Some? ==> row.wasNotified == data.wasNotified.value
    ensures row.notifiedAt == data.notifiedAt && row.notes == data.notes
    ensures data.createdAt.None? ==> row.createdAt == now
    ensures data.createdAt.Some? ==> row.createdAt == data.createdAt.value
    ensures data.updatedAt.None? ==> row.updatedAt == now
    ensures data.updatedAt.Some? ==> row.updatedAt == data.updatedAt.value
  {
    RestrictionAlarm(
      id, data.phoneNumberId, data.userId, data.restrictionStartTime,
      data.expectedReturnTime, data.notifyAt,
      data.isActive.GetOr(true), data.wasNotified.GetOr(false), data.notifiedAt, data.notes,
      data.createdAt.GetOr(now), data.updatedAt.GetOr(now))
  }

  function NotificationRow(id: int, data: NewNotification, now: Timestamp): (row: Notification)
    ensures row.id == id && row.userId == data.userId
    ensures row.phoneNumberId == data.phoneNumberId && row.alarmId == data.alarmId
    ensures row.notificationType == data.notificationType
    ensures row.title == data.title && row.message == data.message
    ensures data.isRead.None? ==> !row.isRead
    ensures data.isRead.Some? ==> row.isRead == data.isRead.value
    ensures data.playSound.None? ==> row.playSound
    ensures data.playSound.Some? ==> row.playSound == data.playSound.value
    ensures data.createdAt.None? ==> row.createdAt == now
    ensures data.createdAt.Some? ==> row.createdAt == data.createdAt.value
  {
    Notification(
      id, data.userId, data.phoneNumberId, data.alarmId, data.notificationType,
      data.title, data.message, data.isRead.GetOr(false), data.playSound.GetOr(true),
      data.createdAt.GetOr(now))
  }
}
