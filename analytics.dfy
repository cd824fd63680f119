/** Statistics derived from a number's event log: block and restriction counts,
    the average time from a block to the next unblock, and the largest daily
    message volume. */
module Analytics {
  import opened Wrappers
  import opened Schema
  import opened Tables

  const MillisPerHour: int := 1000 * 60 * 60

  // ============ COUNTS ============

  /** How many of a number's events have type `t` (`count(*)` under a type filter). */
  function CountOfType(events: seq<Event>, phoneNumberId: int, t: EventType): (r: nat)
    ensures r <= |events|
    ensures r == 0 <==> forall e :: e in events ==> !(e.phoneNumberId == phoneNumberId && e.eventType == t)
  {
    var typed := Filter(events, (e: Event) => e.phoneNumberId == phoneNumberId && e.eventType == t);
    assert typed != [] ==> typed[0] in typed;
    |typed|
  }

  /** How many events a number has (`count(*)` under the number filter). */
  function TotalEvents(events: seq<Event>, phoneNumberId: int): (r: nat)
    ensures r <= |events|
    ensures r == 0 <==> forall e :: e in events ==> e.phoneNumberId != phoneNumberId
  {
    var own := Filter(events, (e: Event) => e.phoneNumberId == phoneNumberId);
    assert own != [] ==> own[0] in own;
    |own|
  }

  function BlockCount(events: seq<Event>, phoneNumberId: int): (r: nat)
    ensures r == 0 <==> forall e :: e in events ==> !(e.phoneNumberId == phoneNumberId && e.eventType == Block)
  {
    CountOfType(events, phoneNumberId, Block)
  }

  function RestrictionCount(events: seq<Event>, phoneNumberId: int): (r: nat)
    ensures r == 0 <==> forall e :: e in events ==> !(e.phoneNumberId == phoneNumberId && e.eventType == Restriction)
  {
    CountOfType(events, phoneNumberId, Restriction)
  }

  /** Recording one more event moves a typed count by exactly one when the event
      is of that number and type, and leaves it alone otherwise; with the empty
      log counting zero, this determines the count. */
  lemma CountOfTypeAppend(events: seq<Event>, e: Event, phoneNumberId: int, t: EventType)
    ensures CountOfType([], phoneNumberId, t) == 0
    ensures CountOfType(events + [e], phoneNumberId, t) ==
            CountOfType(events, phoneNumberId, t) + (if e.phoneNumberId == phoneNumberId && e.eventType == t then 1 else 0)
    ensures TotalEvents(events + [e], phoneNumberId) ==
            TotalEvents(events, phoneNumberId) + (if e.phoneNumberId == phoneNumberId then 1 else 0)
  {
    FilterAppend(events, [e], (x: Event) => x.phoneNumberId == phoneNumberId && x.eventType == t);
    FilterAppend(events, [e], (x: Event) => x.phoneNumberId == phoneNumberId);
  }

  /** Blocks and restrictions are disjoint kinds of a number's events, so together
      they are at most all of its events. */
  lemma {:induction false} TypedCountsWithinTotal(events: seq<Event>, phoneNumberId: int)
    ensures BlockCount(events, phoneNumberId) + RestrictionCount(events, phoneNumberId)
            <= TotalEvents(events, phoneNumberId)
  {
    if events != [] {
      TypedCountsWithinTotal(events[1..], phoneNumberId);
    }
  }

  // ============ MAX DAILY VOLUME ============

  /** SQL `MAX(messageVolume)`: the largest present volume, NULL when none is present. */
  function MaxVolume(evs: seq<Event>): (r: Option<int>)
    ensures r.None? <==> forall e :: e in evs ==> e.messageVolume.None?
    ensures r.Some? ==> exists e :: e in evs && e.messageVolume == Some(r.value)
    ensures r.Some? ==> forall e :: e in evs && e.messageVolume.Some? ==> e.messageVolume.value <= r.value
  {
    if evs == [] then None
    else
      var rest := MaxVolume(evs[1..]);
      assert forall e :: e in evs <==> e == evs[0] || e in evs[1..] by {
        assert evs == [evs[0]] + evs[1..];
      }
      match evs[0].messageVolume
      case None => rest
      case Some(v) =>
        if rest.Some? && rest.value > v then rest else Some(v)
  }

  /** The largest `messageVolume` among a number's volume records, 0 when it has none
      (or none with a volume). A negative maximum is kept: only a NULL or a zero
      maximum falls back to 0. */
  function MaxDailyVolume(events: seq<Event>, phoneNumberId: int): (r: int)
    ensures (forall e :: e in events && e.phoneNumberId == phoneNumberId && e.eventType == VolumeRecord
                ==> e.messageVolume.None?) ==> r == 0
    ensures forall e :: (e in events && e.phoneNumberId == phoneNumberId && e.eventType == VolumeRecord
                         && e.messageVolume.Some?) ==> e.messageVolume.value <= r
    ensures (exists e :: e in events && e.phoneNumberId == phoneNumberId && e.eventType == VolumeRecord
                         && e.messageVolume.Some?) ==>
            exists e :: e in events && e.phoneNumberId == phoneNumberId
                        && e.eventType == VolumeRecord && e.messageVolume == Some(r)
  {
    match MaxVolume(Filter(events, (e: Event) => e.phoneNumberId == phoneNumberId && e.eventType == VolumeRecord))
    case None => 0
    case Some(v) => v
  }

  // ============ AVERAGE RECOVERY TIME ============

  /** The scan's accumulators: summed block-to-unblock gaps, the number of pairs,
      and the date of the block still waiting for its unblock. */
  datatype Recovery = Recovery(total: int, count: nat, pending: Option<Timestamp>)

  const NoRecovery: Recovery := Recovery(0, 0, None)

  /** One event of the scan: a block (re)sets the pending block; an unblock with a
      pending block closes a pair; anything else changes nothing. */
  function Step(acc: Recovery, e: Event): Recovery {
    if e.eventType == Block then acc.(pending := Some(e.eventDate))
    else if e.eventType == Unblock && acc.pending.Some? then
      Recovery(acc.total + (e.eventDate - acc.pending.value), acc.count + 1, None)
    else acc
  }

  /** The scan over a sequence of events, in the order given. */
  function Scan(evs: seq<Event>): Recovery
    decreases |evs|
  {
    if evs == [] then NoRecovery else Step(Scan(evs[..|evs| - 1]), evs[|evs| - 1])
  }

  /** `Math.round(num / den)` on exact values: the nearest integer, halves rounded up. */
  function RoundHalfUp(num: int, den: int): (r: int)
    requires den > 0
    ensures (2 * r - 1) * den <= 2 * num < (2 * r + 1) * den
    ensures num >= 0 ==> r >= 0
  {
    var q := (2 * num + den) / (2 * den);
    assert 2 * den * q <= 2 * num + den < 2 * den * q + 2 * den;
    q
  }

  lemma MulMonotone(a: int, b: int, d: int)
    requires d > 0 && a <= b
    ensures a * d <= b * d
  {
    assert b * d - a * d == (b - a) * d;
  }

  lemma MulCancelStrict(a: int, b: int, d: int)
    requires d > 0 && a * d < b * d
    ensures a < b
  {
    if a >= b {
      MulMonotone(b, a, d);
    }
  }

  /** The two bounds of `RoundHalfUp` leave exactly one candidate. */
  lemma RoundHalfUpUnique(num: int, den: int, r: int)
    requires den > 0
    requires (2 * r - 1) * den <= 2 * num < (2 * r + 1) * den
    ensures r == RoundHalfUp(num, den)
  {
    var q := RoundHalfUp(num, den);
    MulCancelStrict(2 * r - 1, 2 * q + 1, den);
    MulCancelStrict(2 * q - 1, 2 * r + 1, den);
  }

  /** The mean block-to-unblock gap of a scan, in whole hours, or none without a pair. */
  function AverageRecoveryHours(evs: seq<Event>): (r: Option<int>)
    ensures r.None? <==> Scan(evs).count == 0
    ensures r.Some? ==> (2 * r.value - 1) * (Scan(evs).count * MillisPerHour)
                        <= 2 * Scan(evs).total < (2 * r.value + 1) * (Scan(evs).count * MillisPerHour)
  {
    var acc := Scan(evs);
    if acc.count == 0 then None else Some(RoundHalfUp(acc.total, acc.count * MillisPerHour))
  }

  /** What the recovery query selects: the number's blocks and unblocks, by ascending `eventDate`. */
  function BlockUnblockEvents(events: seq<Event>, phoneNumberId: int): (r: seq<Event>)
    ensures forall e :: multiset(r)[e] ==
              if e.phoneNumberId == phoneNumberId && (e.eventType == Block || e.eventType == Unblock)
              then multiset(events)[e] else 0
    ensures forall i, j :: 0 <= i < j < |r| ==> r[i].eventDate <= r[j].eventDate
  {
    SortBy(Filter(events, (e: Event) =>
             e.phoneNumberId == phoneNumberId && (e.eventType == Block || e.eventType == Unblock)),
           (e: Event) => e.eventDate)
  }

  /** Average hours from a block to the next unblock of a number: its blocks and
      unblocks by ascending date, handed to the scan. */
  method AverageRecoveryTime(events: seq<Event>, phoneNumberId: int) returns (r: Option<int>)
    ensures r == AverageRecoveryHours(BlockUnblockEvents(events, phoneNumberId))
    ensures r.None? <==> Scan(BlockUnblockEvents(events, phoneNumberId)).count == 0
    ensures r.Some? ==> r.value >= 0
  {
    var blockEvents := BlockUnblockEvents(events, phoneNumberId);
    SortedScanNonNegative(blockEvents);
    r := RecoveryScan(blockEvents);
  }

  /** The single pass: keep the latest unmatched block, pair it with the next
      unblock, then round the mean gap to whole hours. */
  method RecoveryScan(blockEvents: seq<Event>) returns (r: Option<int>)
    ensures r == AverageRecoveryHours(blockEvents)
  {
    var totalRecoveryTime := 0;
    var recoveryCount: nat := 0;
    var lastBlockTime: Option<Timestamp> := None;
    for i := 0 to |blockEvents|
      invariant Recovery(totalRecoveryTime, recoveryCount, lastBlockTime) == Scan(blockEvents[..i])
    {
      var event := blockEvents[i];
      if event.eventType == Block {
        lastBlockTime := Some(event.eventDate);
      } else if event.eventType == Unblock && lastBlockTime.Some? {
        var recoveryTime := event.eventDate - lastBlockTime.value;
        totalRecoveryTime := totalRecoveryTime + recoveryTime;
        recoveryCount := recoveryCount + 1;
        lastBlockTime := None;
      }
      assert blockEvents[..i + 1][..i] == blockEvents[..i];
    }
    assert blockEvents[..|blockEvents|] == blockEvents;
    if recoveryCount == 0 {
      return None;
    }
    r := Some(RoundHalfUp(totalRecoveryTime, recoveryCount * MillisPerHour));
  }

  // ============ PROPERTIES OF THE SCAN ============

  /** Event `i` is a block with no block and no unblock after it. */
  ghost predicate LatestUnmatchedBlock(evs: seq<Event>, i: int) {
    0 <= i < |evs| && evs[i].eventType == Block &&
    forall k :: i < k < |evs| ==> evs[k].eventType != Block && evs[k].eventType != Unblock
  }

  /** The pending block is the most recent block since the last pair: it is there
      exactly when some block has no block or unblock after it, and it holds that
      block's date (a later block overwrites an earlier one). */
  lemma {:induction false} PendingIsLatestUnmatchedBlock(evs: seq<Event>)
    ensures Scan(evs).pending.Some? <==> exists i :: LatestUnmatchedBlock(evs, i)
    ensures forall i :: LatestUnmatchedBlock(evs, i) ==> Scan(evs).pending == Some(evs[i].eventDate)
    decreases |evs|
  {
    if evs != [] {
      var n := |evs| - 1;
      var prefix := evs[..n];
      PendingIsLatestUnmatchedBlock(prefix);
      var e := evs[n];
      if e.eventType == Block {
        assert LatestUnmatchedBlock(evs, n);
        forall i | 0 <= i < n ensures !LatestUnmatchedBlock(evs, i) {
          assert i < n < |evs| && evs[n].eventType == Block;
        }
      } else if e.eventType == Unblock {
        forall i | 0 <= i < n ensures !LatestUnmatchedBlock(evs, i) {
          assert i < n < |evs| && evs[n].eventType == Unblock;
        }
      } else {
        forall i ensures LatestUnmatchedBlock(evs, i) <==> LatestUnmatchedBlock(prefix, i) {
          if 0 <= i < n {
            assert forall k :: i < k < |prefix| ==> prefix[k] == evs[k];
          }
        }
      }
    }
  }

  /** An unblock after an unmatched block closes exactly that pair: the count
      grows by one and the gap from that block is added. */
  lemma UnblockClosesLatestBlock(evs: seq<Event>, u: Event, i: int)
    requires u.eventType == Unblock && LatestUnmatchedBlock(evs, i)
    ensures Scan(evs + [u]) == Recovery(Scan(evs).total + (u.eventDate - evs[i].eventDate),
                                        Scan(evs).count + 1, None)
  {
    assert (evs + [u])[..|evs|] == evs;
    PendingIsLatestUnmatchedBlock(evs);
  }

  /** An unblock with no unmatched block before it is ignored. */
  lemma UnmatchedUnblockIgnored(evs: seq<Event>, u: Event)
    requires u.eventType == Unblock && forall i :: !LatestUnmatchedBlock(evs, i)
    ensures Scan(evs + [u]) == Scan(evs)
  {
    assert (evs + [u])[..|evs|] == evs;
    PendingIsLatestUnmatchedBlock(evs);
  }

  /** A trailing block never changes the average: it waits for an unblock that does not come. */
  lemma TrailingBlockIgnored(evs: seq<Event>, b: Event)
    requires b.eventType == Block
    ensures Scan(evs + [b]).pending == Some(b.eventDate)
    ensures AverageRecoveryHours(evs + [b]) == AverageRecoveryHours(evs)
  {
    assert (evs + [b])[..|evs|] == evs;
  }

  /** Over events in ascending date order every gap is non-negative, so the sum is too;
      the pending block is never later than the last event. */
  lemma {:induction false} SortedScanNonNegative(evs: seq<Event>)
    requires forall i, j :: 0 <= i < j < |evs| ==> evs[i].eventDate <= evs[j].eventDate
    ensures Scan(evs).total >= 0
    ensures Scan(evs).pending.Some? ==> |evs| > 0 && Scan(evs).pending.value <= evs[|evs| - 1].eventDate
    decreases |evs|
  {
    if evs != [] {
      var n := |evs| - 1;
      SortedScanNonNegative(evs[..n]);
    }
  }

  /** The two-pair example: gaps of 5h and 12h average 8.5h, which rounds up to 9. */
  lemma TwoPairExample(b1: Event, u1: Event, b2: Event, u2: Event)
    requires b1.eventType == Block && b1.eventDate == 0
    requires u1.eventType == Unblock && u1.eventDate == 5 * MillisPerHour
    requires b2.eventType == Block && b2.eventDate == 10 * MillisPerHour
    requires u2.eventType == Unblock && u2.eventDate == 22 * MillisPerHour
    ensures AverageRecoveryHours([b1, u1, b2, u2]) == Some(9)
  {
    var evs := [b1, u1, b2, u2];
    assert evs[..3] == [b1, u1, b2] && evs[..3][..2] == [b1, u1] && evs[..3][..2][..1] == [b1];
    assert [b1][..0] == [];
    assert Scan([b1]) == Recovery(0, 0, Some(0));
    assert Scan([b1, u1]) == Recovery(5 * MillisPerHour, 1, None);
    assert Scan([b1, u1, b2]) == Recovery(5 * MillisPerHour, 1, Some(10 * MillisPerHour));
    assert Scan(evs) == Recovery(17 * MillisPerHour, 2, None);
    RoundHalfUpUnique(17 * MillisPerHour, 2 * MillisPerHour, 9);
  }

  // ============ PER-NUMBER STATISTICS ============

  datatype PhoneNumberStats = PhoneNumberStats(
    blockCount: nat, restrictionCount: nat, avgRecoveryTimeHours: Option<int>,
    maxDailyVolume: int, totalEvents: nat)

  /** The summary of one number's event log. */
  method GetPhoneNumberStats(events: seq<Event>, phoneNumberId: int) returns (s: PhoneNumberStats)
    ensures s.blockCount == CountOfType(events, phoneNumberId, Block)
    ensures s.restrictionCount == CountOfType(events, phoneNumberId, Restriction)
    ensures s.totalEvents == TotalEvents(events, phoneNumberId)
    ensures s.blockCount + s.restrictionCount <= s.totalEvents
    ensures s.avgRecoveryTimeHours == AverageRecoveryHours(BlockUnblockEvents(events, phoneNumberId))
    ensures s.avgRecoveryTimeHours.Some? ==> s.avgRecoveryTimeHours.value >= 0
    ensures s.maxDailyVolume == MaxDailyVolume(events, phoneNumberId)
  {
    var blockCount := BlockCount(events, phoneNumberId);
    var avgRecoveryTime := AverageRecoveryTime(events, phoneNumberId);
    var maxVolume := MaxDailyVolume(events, phoneNumberId);
    var restrictionCount := RestrictionCount(events, phoneNumberId);
    var totalEvents := TotalEvents(events, phoneNumberId);
    TypedCountsWithinTotal(events, phoneNumberId);
    s := PhoneNumberStats(blockCount, restrictionCount, avgRecoveryTime, maxVolume, totalEvents);
  }
}
