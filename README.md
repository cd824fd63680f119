# Nexuus query layer in Dafny

Nexuus tracks a fleet of phone numbers (chips) used for messaging. Each number belongs
to a user and an operation. Its history is an event log: blocks, unblocks,
restrictions, volume records, status changes and more. Users can tag numbers. They
can set restriction alarms that fire once a restricted number is expected back, and
they get notifications. This project models the data-access and analytics layer over
that database. It covers the row shapes and enum vocabularies of the schema, the read
queries, the insert, update and delete operations, the per-number statistics
(including the average block-to-unblock recovery time), the dashboard partition by
status, and the phone-number search. Then it proves what these promise.

Layout, one module per file:

- `wrappers.dfy` (`Wrappers`): `Option`, used for nullable columns and for "the row or null".
- `schema.dfy` (`Schema`): the enum vocabularies (status, tier, event type, notification
  type) and their names. It also has one datatype per row, and one "new row" record per
  insert, where a column with a default may be left out. The `*Row` functions fill in
  the defaults.
- `tables.dfy` (`Tables`): WHERE (`Filter`), first match (`First`), ORDER BY (a stable
  insertion sort on an integer key, `SortBy`), LIMIT (`Take`), LIKE (`Contains`),
  INNER JOIN (`FlatMap`) and UPDATE (`MapRows`) over tables held as sequences.
- `queries.dfy` (`Queries`): the read queries. Each takes the tables it reads as
  arguments. Each states which rows it returns and in what order. An unlimited query
  also states that each matching row appears as often as it is stored. A limited one
  (`RecentEvents`, `NotificationsByUser`) states how many rows it returns and that
  each appears at most as often as stored. Which tags `TagsForPhoneNumber` lists is
  stated by its own contract and by the lemmas next to it. The model lists them in link
  order, and the append-at-end statements about it hold for that order only.
- `updates.dfy` (`Updates`): what the UPDATE statements do to a table. This covers the
  alarm lifecycle (pending → notified) and the notification read flag.
- `analytics.dfy` (`Analytics`): the per-number statistics. The recovery-time loop is a
  method, proved equal to a recursive scan `Scan`. The pairing rules and the result
  are proved about `Scan`.
- `dashboard.dfy` (`Dashboard`): the dashboard summary and its seven status buckets.
- `search.dfy` (`Search`): the search. A method builds the list of conditions, one per
  truthy parameter, and its meaning is proved against a reference predicate `Matches`.
- `store.dfy` (`Storage`): the database as a `Store` object. It has one sequence field
  per table and one auto-increment counter per table. The create, delete, tag-link,
  alarm and notification operations are methods that reassign those fields, and each
  `modifies` clause names only the tables the operation touches.

Storage-level conventions:

- Ids are handed out by a per-table counter starting at 1. `Store.Valid` says every
  stored id is below its counter, so a fresh id is unused. This is why "insert, then
  fetch by the new id" returns exactly the inserted row.
- Timestamps are integers (milliseconds). The current time is a `now` parameter.
- A column that is nullable in the schema is an `Option`.
- Truthiness follows JavaScript. An `operationId` of 0 and an empty string count as
  "not supplied" (search, dashboard). The recovery scan's `lastBlockTime` is a `Date`
  object or null, so it is truthy exactly when a block is pending (`Option.Some?`).

Where the code and the system's documented intent disagree, the model follows the code:

- Marking an alarm as notified is documented as idempotent. The code writes
  `notifiedAt = now` on every call, so a second call moves `notifiedAt` to the new time
  (`Updates.MarkNotifiedTwice`).
- `getDashboardStats` with a truthy `operationId` counts every number of that operation,
  whoever owns it. The user id is not consulted at all (`Dashboard.GetDashboardStats`).

## Model

| member | source | states |
|---|---|---|
| Schema.StatusName | schema.ts:49-57 | each status has a name in the seven-word status vocabulary, and parsing that name gives the status back |
| Schema.ParseStatus | schema.ts:49-57 | a string parses to a status exactly when it is one of the seven vocabulary words |
| Schema.ParseStatusInvertsName | schema.ts:49-57 | a string that parses to a status is that status's name, so parsing inverts naming on the whole vocabulary |
| Schema.StatusVocabularyExact | schema.ts:49-57 | there are exactly seven statuses, pairwise distinct, each named by the vocabulary word at its position, and every status is among them |
| Schema.EventTypeName | schema.ts:98-111 | each of the twelve event types has a name in the event-type vocabulary that parses back to it |
| Schema.ParseEventType | schema.ts:98-111 | a string parses to an event type exactly when it is one of the twelve vocabulary words |
| Schema.OperationRow | schema.ts:28-35 | an inserted operation gets the new id and keeps every supplied column; a timestamp left out defaults to now |
| Schema.PhoneNumberRow | schema.ts:43-86 | an inserted number gets the new id and keeps every supplied column; a column left out takes its default: status `unknown`, risk score 50, tier B, zero message, block and restriction totals, and timestamps of now |
| Schema.EventRow | schema.ts:95-118 | an inserted event gets the new id and keeps every supplied column; `createdAt` defaults to now |
| Schema.TagRow | schema.ts:127-133 | an inserted tag gets the new id and keeps its name, color, owner and any supplied `createdAt`; `createdAt` defaults to now |
| Schema.AlarmRow | schema.ts:154-166 | an inserted alarm gets the new id and keeps every supplied column; it defaults to active and not notified, with timestamps of now |
| Schema.NotificationRow | schema.ts:175-194 | an inserted notification gets the new id and keeps every supplied column; it defaults to unread with sound on and `createdAt` of now |
| Queries.OperationsByUser | queries.ts:31-35 | exactly the user's operations, each as often as stored, newest `createdAt` first |
| Queries.FindOperation | queries.ts:37-42 | none exactly when no operation has the id, else a stored operation with that id |
| Queries.PhoneNumbersByUser | queries.ts:66-70 | exactly the user's numbers, each as often as stored, newest `addedAt` first |
| Queries.PhoneNumbersByOperation | queries.ts:72-76 | exactly the operation's numbers, whoever owns them, newest `addedAt` first |
| Queries.FindPhoneNumber | queries.ts:78-83 | none exactly when no number has the id, else a stored number with that id |
| Queries.EventsOfPhoneNumber | queries.ts:155-159 | exactly the number's events, latest `eventDate` first |
| Queries.RecentEvents | queries.ts:161-165 | `limit` stored events (50 when `limit` is left out; all of them when there are fewer), each at most as often as stored, latest first, and every event left out is no later than every event returned |
| Queries.FindEvent | queries.ts:167-173 | the event fetched back by id: none exactly when no event has the id |
| Queries.FindTag | queries.ts:189-195 | the tag fetched back by id: none exactly when no tag has the id |
| Queries.TagsForPhoneNumber | queries.ts:221-230 | every listed tag is a stored tag, and a number with no link lists no tag |
| Queries.JoinedTags | queries.ts:221-229 | one link joins to exactly the stored tags with its tag id, and only when it belongs to the number |
| Queries.TagsForPhoneNumberMembers | queries.ts:221-230 | a tag is listed for a number exactly when it is stored and some link joins the number to its id |
| Queries.TagsForPhoneNumberAppend | queries.ts:205-230 | appending a link appends its tags to the number's list, with no deduplication |
| Queries.AddLinkEffect | queries.ts:205-210 | a new link adds its tag at the end of its own number's list and leaves every other number's list unchanged |
| Queries.AlarmsByUser | queries.ts:309-315 | exactly the user's alarms, newest `createdAt` first |
| Queries.ActiveAlarms | queries.ts:317-327 | exactly the user's alarms that are active and not yet notified, each as often as stored, soonest `notifyAt` first |
| Queries.AlarmsToNotify | queries.ts:368-378 | across all users, exactly the active, not-yet-notified alarms with `notifyAt <= now`, each as often as stored, with no user filter and no ordering |
| Queries.FindAlarm | queries.ts:329-334 | none exactly when no alarm has the id, else a stored alarm with that id |
| Queries.AlarmWithPhoneNumber | queries.ts:380-385 | none when the alarm is absent; otherwise the alarm with its number, and the number is missing exactly when no stored number has the alarm's number id |
| Queries.NotificationsOf | queries.ts:391-392 | exactly the user's notifications, each as often as stored |
| Queries.Newest | queries.ts:393-394 | `limit` of the given notifications (all when there are fewer), each at most as often as given, newest first, and none left out is newer than one returned |
| Queries.NotificationsByUser | queries.ts:388-395 | `limit` of the user's notifications (50 when `limit` is left out; all of them when there are fewer), each at most as often as stored, newest first, and every one of the user's notifications left out is no newer than every one returned |
| Queries.FindNotification | queries.ts:405-411 | the notification fetched back by id: none exactly when none has the id |
| Queries.UnreadNotifications | queries.ts:397-403 | exactly the user's unread notifications, newest first |
| Queries.VolumeHistory | queries.ts:461-475 | exactly the number's volume records dated at or after the cutoff, oldest first |
| Queries.StatusHistory | queries.ts:478-488 | exactly the number's status-change events, oldest first |
| Updates.Notified | queries.ts:357-364 | the notified alarm is inactive, notified at `now`, updated at `now` and no longer pending; every other column is kept |
| Updates.MarkNotified | queries.ts:357-364 | the update rewrites the rows with the id to their notified form and leaves every other row as it was, in place |
| Updates.MarkNotifiedKeepsOthers | queries.ts:357-364 | every alarm row with another id is in the table as often as before |
| Updates.MarkNotifiedLeavesQueues | queries.ts:317-378 | after the update no alarm with the id is in any user's active queue or in the due queue at any time |
| Updates.MarkNotifiedKeepsOtherQueued | queries.ts:317-378 | every alarm with another id is in each queue exactly as often as before |
| Updates.MarkNotifiedFetch | queries.ts:357-366 | fetching the alarm after the update finds it exactly when it existed, and finds it notified at `now` and inactive |
| Updates.MarkNotifiedTwice | queries.ts:357-366 | marking twice, at `t1` then at `t2`, equals marking once at `t2`: the flags stay set, and `notifiedAt` and `updatedAt` move to `t2`, whether `t2` is later or not |
| Updates.MarkNotifiedOneWay | queries.ts:357-366 | the update never reactivates an alarm and never clears `wasNotified` |
| Updates.NewAlarmIsQueued | schema.ts:161-163 | an alarm inserted with the defaults is in its user's active queue, and in the due queue exactly once its `notifyAt` has come |
| Updates.MarkRead | queries.ts:413-418 | the notification with the id becomes read and every other row is unchanged |
| Updates.MarkAllRead | queries.ts:420-425 | every notification of the user becomes read and other users' rows are unchanged |
| Updates.MarkReadLeavesUnread | queries.ts:397-418 | after marking a notification read, it is in no user's unread list |
| Updates.MarkAllReadEmptiesUnread | queries.ts:397-425 | after marking all of a user's notifications read, their unread list is empty |
| Analytics.CountOfType | queries.ts:236-239 | a number's count of one event type is at most the log's length, and zero exactly when it has no event of that type |
| Analytics.TotalEvents | queries.ts:293-297 | a number's event count is at most the log's length, and zero exactly when it has no event |
| Analytics.BlockCount | queries.ts:233-240 | the number's block count is zero exactly when it has no block event |
| Analytics.RestrictionCount | queries.ts:288-293 | the number's restriction count is zero exactly when it has no restriction event |
| Analytics.CountOfTypeAppend | queries.ts:233-240 | recording one event raises its type's count and the total by one for its own number only |
| Analytics.TypedCountsWithinTotal | queries.ts:279-306 | block count plus restriction count never exceeds the number's total event count |
| Analytics.MaxVolume | queries.ts:270-277 | SQL MAX: none exactly when every volume is NULL, else a present volume that no other present volume exceeds |
| Analytics.MaxDailyVolume | queries.ts:270-277 | 0 when none of the number's volume records has a volume; otherwise a present volume of one of them that no other present volume exceeds, negative if the maximum is negative |
| Analytics.RoundHalfUp | queries.ts:267 | the result is the nearest integer to `num / den`, with halves rounded up, and it is non-negative for a non-negative numerator |
| Analytics.RoundHalfUpUnique | queries.ts:267 | exactly one integer meets the rounding bounds |
| Analytics.AverageRecoveryHours | queries.ts:251-267 | none exactly when the scan formed no pair, else the rounded mean gap in hours |
| Analytics.BlockUnblockEvents | queries.ts:245-249 | exactly the number's block and unblock events, in ascending `eventDate` |
| Analytics.RecoveryScan | queries.ts:251-267 | the loop returns the average defined by the recursive scan over the events in the order given |
| Analytics.AverageRecoveryTime | queries.ts:242-268 | none exactly when no block-to-unblock pair exists, otherwise a non-negative number of hours equal to the scan's average |
| Analytics.PendingIsLatestUnmatchedBlock | queries.ts:255-263 | a block is pending exactly when some block has no block or unblock after it, and the pending time is that block's date: a later block overwrites an earlier one |
| Analytics.UnblockClosesLatestBlock | queries.ts:258-263 | an unblock after the latest unmatched block adds exactly that gap, counts one pair and clears the pending block |
| Analytics.UnmatchedUnblockIgnored | queries.ts:258 | an unblock with no pending block leaves every accumulator unchanged |
| Analytics.TrailingBlockIgnored | queries.ts:255-267 | a trailing block becomes pending and never changes the average |
| Analytics.SortedScanNonNegative | queries.ts:249-260 | over events in ascending date order the summed gaps are non-negative |
| Analytics.TwoPairExample | queries.ts:251-267 | gaps of 5 h and 12 h average 8.5 h, which rounds up to 9 |
| Analytics.GetPhoneNumberStats | queries.ts:279-306 | the summary holds the block, restriction and total counts, with blocks plus restrictions at most the total, plus the non-negative average recovery and the maximum daily volume |
| Dashboard.CountsCover | queries.ts:443-451 | the seven per-status counts add up to the number of numbers |
| Dashboard.StatusCountsCover | queries.ts:443-451 | the seven status filters together keep every number exactly once |
| Dashboard.Partition | queries.ts:443-451 | each bucket holds exactly the numbers of its status, each as often as listed, and the seven bucket sizes add up to the number of numbers |
| Dashboard.GetDashboardStats | queries.ts:435-458 | the numbers are the operation's numbers when an operation id is truthy and the user's otherwise; `total` is their count; the bucket sizes add up to `total`; each bucket holds exactly the numbers of its status |
| Dashboard.BucketsDisjoint | queries.ts:443-451 | no number is in two buckets |
| Search.AllHoldAppend | queries.ts:151 | adding a condition to the conjunction holds exactly when the old list and the new condition both hold |
| Search.NextFilter | queries.ts:125-149 | adding a supplied filter's condition extends the list's meaning by that filter, and skipping an absent one keeps it |
| Search.BuildConditions | queries.ts:123-149 | the owner test comes first, with no filters it is the only condition, and the conjunction holds exactly when the reference `Matches` does |
| Search.SearchPhoneNumbers | queries.ts:113-152 | exactly the rows that match, each as often as stored, all the user's, newest `addedAt` first, and with no filters all the user's numbers |
| Search.SearchResultMeaning | queries.ts:113-152 | the filtered rows are exactly the matching rows, all the user's, and all the user's numbers when no filter is supplied |
| Search.SelectedCounts | queries.ts:151 | each row is selected as often as stored when it matches, else never |
| Search.SelectedOwned | queries.ts:123 | every selected row belongs to the user |
| Search.SelectedAllOwned | queries.ts:123-149 | with no filter supplied, the selection is all of the user's numbers |
| Search.MatchesOwned | queries.ts:123 | a match is always the user's number |
| Search.NoFiltersMatchesOwner | queries.ts:125-141 | with every parameter falsy, a number matches exactly when it is the user's |
| Search.MoreFiltersNarrow | queries.ts:125-149 | supplying more filters only narrows the result: every row of the narrower search is in the wider one, as often |
| Search.QueryMatchesAnyField | queries.ts:141-148 | the free-text filter matches when the text occurs at some offset of the number, of the device or of the notes |
| Storage.Store.constructor | schema.ts:44 | an empty database whose id counters start at 1 |
| Storage.Store.CreateOperation | queries.ts:44-49 | appends the defaulted row under a fresh id and returns that row fetched back |
| Storage.Store.DeleteOperation | queries.ts:58-63 | removes the operation's row only, with no cascade, and reports success |
| Storage.Store.CreatePhoneNumber | queries.ts:85-90 | appends the defaulted row under a fresh id and returns that row fetched back |
| Storage.Store.DeletePhoneNumber | queries.ts:99-111 | afterwards no event, tag link, alarm or number row refers to the id; other numbers' events and alarms are kept as often as before; success is reported even when the id was absent |
| Storage.Store.DeleteEventsOf | queries.ts:103 | removes exactly the number's events |
| Storage.Store.DeleteLinksOf | queries.ts:105 | removes exactly the number's tag links |
| Storage.Store.DeleteAlarmsOf | queries.ts:107 | removes exactly the number's alarms |
| Storage.Store.DeleteNumberRow | queries.ts:109 | removes exactly the number's own row |
| Storage.Store.CreateEvent | queries.ts:167-173 | appends the defaulted row under a fresh id and returns that row fetched back |
| Storage.Store.DeleteEvent | queries.ts:175-180 | removes the event with the id and reports success |
| Storage.Store.CreateTag | queries.ts:189-195 | appends the defaulted row under a fresh id and returns that row fetched back |
| Storage.Store.DeleteTag | queries.ts:197-203 | removes the tag's links and then the tag, so no number lists it afterwards |
| Storage.Store.DeleteLinksToTag | queries.ts:200 | removes exactly the links to the tag |
| Storage.Store.DeleteTagRow | queries.ts:201 | removes exactly the tag's row |
| Storage.Store.AddTagToPhoneNumber | queries.ts:205-210 | appends a link with a fresh id without a duplicate check, so the tag is appended to the number's list again; other numbers' lists are unchanged |
| Storage.Store.RemoveTagFromPhoneNumber | queries.ts:212-219 | removes every link between the number and the tag, so the number no longer lists the tag; all other links stay |
| Storage.Store.CreateAlarm | queries.ts:336-341 | appends the defaulted alarm under a fresh id, returns it fetched back, and with the defaults it is in its user's active queue |
| Storage.Store.DeleteAlarm | queries.ts:350-355 | removes the alarm with the id and reports success |
| Storage.Store.MarkAlarmAsNotified | queries.ts:357-366 | applies the notified transition and returns the alarm fetched back by id from the updated table: none exactly when no alarm had the id, else that stored row, notified at `now` and inactive, and it is then in no queue |
| Storage.Store.CreateNotification | queries.ts:405-411 | appends the defaulted notification under a fresh id and returns it fetched back |
| Storage.Store.MarkNotificationAsRead | queries.ts:413-418 | marks the notification read, so it leaves every unread list |
| Storage.Store.MarkAllNotificationsAsRead | queries.ts:420-425 | marks all of the user's notifications read, so their unread list is empty and other users' rows are unchanged |
| Storage.Store.DeleteNotification | queries.ts:427-432 | removes the notification with the id and reports success |

## Left out

- The "no database handle" branches of every query (`null`, `[]`, `0` or `success: false`): the model always has its tables.
- The users table, `getUserById` and `updateUserProfile`: authentication data, not part of this model.
- `updateOperation`, `updatePhoneNumber` and `updateAlarm`: generic partial-record patches passed straight to the ORM, with no logic of their own.
- `getTagsByUserId`: it orders tags by name under MySQL string collation, which the model has no counterpart for.
- The `systemAlerts` table: no query uses it.
- The cached statistics columns of phone numbers (`totalBlocks`, `avgRecoveryHours` and the like): only their insert defaults are modelled, because the query layer never maintains them.
- Analytics.RoundHalfUp: computes `Math.round(total / count / 3600000)` exactly on integers. Floating-point rounding of the two divisions can differ at half-hour boundaries.
- Search.Like: `LIKE '%s%'` is plain substring search on a present string. MySQL's case-insensitive collation and `%`/`_` inside user input acting as wildcards are not modelled. A NULL column never matches, as in SQL.
- Search.Holds: the operator and status filters (`OperatorIs`, `StatusIs`) are SQL `=` on a varchar and an ENUM column, which MySQL also compares under the column's case-insensitive collation and with trailing spaces ignored. The model compares the strings exactly, so a search for `VIVO` or `active` written in another case matches here only when the case agrees.
- Ordering among rows with equal sort keys: SQL leaves it unspecified. The listing queries promise only sorted order and the right rows with the right multiplicities. `getTagsForPhoneNumber` has no ORDER BY at all.
- Analytics.AverageRecoveryTime: the model's stable sort fixes one order for a block and an unblock with the same `eventDate` (table order), and the result is stated for that order. MySQL may return them the other way round, which can pair them differently and give another average, or none.
- Timestamps are integers. MySQL `timestamp` second precision is not modelled.
- Column widths: ids, `messageVolume`, `riskScore`, `ipChangeFrequency` and the `total*` columns are 32-bit signed `int` columns, and `timestamp` columns hold only 1970-01-01 to 2038-01-19. The model uses unbounded integers for all of them, so it accepts on insert the out-of-range values that MySQL in strict mode rejects. No computation in the query layer depends on these bounds.
- Queries.TagsForPhoneNumber: the model lists a number's tags in link order. `Queries.TagsForPhoneNumberAppend`, `Queries.AddLinkEffect` and `Storage.Store.AddTagToPhoneNumber` state that a new link's tags go at the end of the list, and that holds for this order only. The inner join has no ORDER BY, so for the program only the multiset form of those statements carries over: the new link adds its tags once more.
- Queries.RecentEvents, Queries.NotificationsByUser, Queries.Newest: `limit` is a JavaScript `number` passed unchecked to the LIMIT clause. The model takes it as a natural number, so a negative or non-integer `limit` is not modelled; what the driver or MySQL does with one (an SQL error, or no limit) is outside the model.
- Queries.VolumeHistory: the calendar arithmetic of `setDate(getDate() - days)` is replaced by a `startDate` parameter.
- Wall-clock time (`new Date()`, `defaultNow()`) is a `now` parameter of each operation.
- Updates.Notified: sets `updatedAt` to `now` (ON UPDATE CURRENT_TIMESTAMP). MySQL leaves it unchanged when the update changes no column value, which the model does not distinguish.
- Inserts that supply an explicit id or an explicit NULL for a column with a default: the insert records have no id, and an absent value always takes the default.
- Transactions and concurrent writers: the multi-step deletes run as uninterrupted sequences of statements. Partial failure is not modelled.
- Foreign keys are not enforced, as in the schema: a link, event or alarm may point at a row that does not exist.
