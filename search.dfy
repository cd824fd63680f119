/** Phone-number search: a conjunction of the owner test and each optional
    filter the caller supplied. A filter is supplied when its value is truthy,
    so an operation id of 0 and an empty string both mean "no filter". */
module Search {
  import opened Wrappers
  import opened Schema
  import opened Tables
  import opened Queries

  datatype SearchParams = SearchParams(
    query: string, operator: string, status: string, device: string, operationId: int)

  /** No filter is supplied. */
  predicate NoFilters(p: SearchParams) {
    p.query == "" && p.operator == "" && p.status == "" && p.device == "" && p.operationId == 0
  }

  /** One condition of the WHERE clause. */
  datatype Condition =
    | OwnedBy(userId: int)
    | InOperation(operationId: int)
    | OperatorIs(operator: string)
    | StatusIs(status: string)
    | DeviceLike(device: string)
    | QueryLike(query: string)

  /** `column LIKE '%s%'`: a NULL column never matches. */
  predicate Like(column: Option<string>, s: string) {
    column.Some? && Contains(column.value, s)
  }

  predicate Holds(c: Condition, n: PhoneNumber) {
    match c
    case OwnedBy(u) => n.userId == u
    case InOperation(o) => n.operationId == o
    case OperatorIs(op) => n.operator == Some(op)
    case StatusIs(s) => StatusName(n.status) == s
    case DeviceLike(d) => Like(n.device, d)
    case QueryLike(q) => Like(Some(n.number), q) || Like(n.device, q) || Like(n.notes, q)
  }

  predicate AllHold(conditions: seq<Condition>, n: PhoneNumber) {
    forall i :: 0 <= i < |conditions| ==> Holds(conditions[i], n)
  }

  /** What a search means: the number is the user's, and passes every supplied filter. */
  predicate Matches(userId: int, p: SearchParams, n: PhoneNumber) {
    MatchesFirst(5, userId, p, n)
  }

  /** The owner test and the first `k` optional filters, in the order the source adds them. */
  predicate MatchesFirst(k: nat, userId: int, p: SearchParams, n: PhoneNumber) {
    && n.userId == userId
    && (k >= 1 && p.operationId != 0 ==> n.operationId == p.operationId)
    && (k >= 2 && p.operator != "" ==> n.operator == Some(p.operator))
    && (k >= 3 && p.status != "" ==> StatusName(n.status) == p.status)
    && (k >= 4 && p.device != "" ==> Like(n.device, p.device))
    && (k >= 5 && p.query != "" ==> Like(Some(n.number), p.query) || Like(n.device, p.query) || Like(n.notes, p.query))
  }

  lemma AllHoldAppend(conditions: seq<Condition>, c: Condition, n: PhoneNumber)
    ensures AllHold(conditions + [c], n) <==> AllHold(conditions, n) && Holds(c, n)
  {
    if AllHold(conditions, n) && Holds(c, n) {
      forall i | 0 <= i < |conditions| + 1 ensures Holds((conditions + [c])[i], n) {
        if i < |conditions| { assert (conditions + [c])[i] == conditions[i]; }
      }
    }
    if AllHold(conditions + [c], n) {
      forall i | 0 <= i < |conditions| ensures Holds(conditions[i], n) {
        assert (conditions + [c])[i] == conditions[i];
      }
      assert (conditions + [c])[|conditions|] == c;
    }
  }

  /** Adding the condition of filter `k + 1` when it is supplied takes the list from
      the first `k` filters to the first `k + 1`. */
  lemma NextFilter(conditions: seq<Condition>, k: nat, supplied: bool, c: Condition, userId: int, p: SearchParams)
    returns (next: seq<Condition>)
    requires k < 5
    requires forall n :: AllHold(conditions, n) <==> MatchesFirst(k, userId, p, n)
    requires supplied <==> [p.operationId != 0, p.operator != "", p.status != "", p.device != "", p.query != ""][k]
    requires supplied ==> c == [InOperation(p.operationId), OperatorIs(p.operator), StatusIs(p.status),
                                DeviceLike(p.device), QueryLike(p.query)][k]
    ensures next == if supplied then conditions + [c] else conditions
    ensures forall n :: AllHold(next, n) <==> MatchesFirst(k + 1, userId, p, n)
  {
    next := if supplied then conditions + [c] else conditions;
    forall n ensures AllHold(next, n) <==> MatchesFirst(k + 1, userId, p, n) {
      AllHoldAppend(conditions, c, n);
    }
  }

  /** The condition list: the owner test, then one condition per truthy filter. */
  method BuildConditions(userId: int, params: SearchParams) returns (conditions: seq<Condition>)
    ensures |conditions| >= 1 && conditions[0] == OwnedBy(userId)
    ensures NoFilters(params) ==> conditions == [OwnedBy(userId)]
    ensures forall n :: AllHold(conditions, n) <==> Matches(userId, params, n)
  {
    conditions := [OwnedBy(userId)];
    assert forall n :: AllHold(conditions, n) <==> MatchesFirst(0, userId, params, n) by {
      forall n ensures AllHold(conditions, n) <==> MatchesFirst(0, userId, params, n) {
        assert conditions[0] == OwnedBy(userId);
      }
    }
    ghost var next := NextFilter(conditions, 0, params.operationId != 0, InOperation(params.operationId), userId, params);
    if params.operationId != 0 {
      conditions := conditions + [InOperation(params.operationId)];
    }
    next := NextFilter(conditions, 1, params.operator != "", OperatorIs(params.operator), userId, params);
    if params.operator != "" {
      conditions := conditions + [OperatorIs(params.operator)];
    }
    next := NextFilter(conditions, 2, params.status != "", StatusIs(params.status), userId, params);
    if params.status != "" {
      conditions := conditions + [StatusIs(params.status)];
    }
    next := NextFilter(conditions, 3, params.device != "", DeviceLike(params.device), userId, params);
    if params.device != "" {
      conditions := conditions + [DeviceLike(params.device)];
    }
    next := NextFilter(conditions, 4, params.query != "", QueryLike(params.query), userId, params);
    if params.query != "" {
      conditions := conditions + [QueryLike(params.query)];
    }
  }

  /** The user's numbers passing every supplied filter, most recently added first. */
  method SearchPhoneNumbers(rows: seq<PhoneNumber>, userId: int, params: SearchParams) returns (r: seq<PhoneNumber>)
    ensures forall n :: multiset(r)[n] == if Matches(userId, params, n) then multiset(rows)[n] else 0
    ensures forall n :: n in r ==> n.userId == userId
    ensures forall i, j :: 0 <= i < j < |r| ==> r[i].addedAt >= r[j].addedAt
    ensures NoFilters(params) ==> multiset(r) == multiset(PhoneNumbersByUser(rows, userId))
  {
    var conditions := BuildConditions(userId, params);
    var selected := Filter(rows, (n: PhoneNumber) => AllHold(conditions, n));
    r := SortBy(selected, (n: PhoneNumber) => -n.addedAt);
    assert multiset(r) == multiset(selected);
    SearchResultMeaning(rows, userId, params, conditions, r);
  }

  lemma SearchResultMeaning(rows: seq<PhoneNumber>, userId: int, params: SearchParams,
                            conditions: seq<Condition>, r: seq<PhoneNumber>)
    requires forall n :: AllHold(conditions, n) <==> Matches(userId, params, n)
    requires multiset(r) == multiset(Filter(rows, (n: PhoneNumber) => AllHold(conditions, n)))
    ensures forall n :: multiset(r)[n] == if Matches(userId, params, n) then multiset(rows)[n] else 0
    ensures forall n :: n in r ==> n.userId == userId
    ensures NoFilters(params) ==> multiset(r) == multiset(PhoneNumbersByUser(rows, userId))
  {
    SelectedCounts(rows, userId, params, conditions, r);
    SelectedOwned(rows, userId, params, r);
    if NoFilters(params) {
      SelectedAllOwned(rows, userId, params, r);
    }
  }

  lemma SelectedCounts(rows: seq<PhoneNumber>, userId: int, params: SearchParams,
                       conditions: seq<Condition>, r: seq<PhoneNumber>)
    requires forall n :: AllHold(conditions, n) <==> Matches(userId, params, n)
    requires multiset(r) == multiset(Filter(rows, (n: PhoneNumber) => AllHold(conditions, n)))
    ensures forall n :: multiset(r)[n] == if Matches(userId, params, n) then multiset(rows)[n] else 0
  {
    var selected := Filter(rows, (n: PhoneNumber) => AllHold(conditions, n));
    forall n ensures multiset(r)[n] == if Matches(userId, params, n) then multiset(rows)[n] else 0 {
      assert multiset(r)[n] == multiset(selected)[n];
    }
  }

  lemma SelectedOwned(rows: seq<PhoneNumber>, userId: int, params: SearchParams, r: seq<PhoneNumber>)
    requires forall n :: multiset(r)[n] == if Matches(userId, params, n) then multiset(rows)[n] else 0
    ensures forall n :: n in r ==> n.userId == userId
  {
    forall n | n in r ensures n.userId == userId {
      assert multiset(r)[n] > 0;
      MatchesOwned(userId, params, n);
    }
  }

  lemma SelectedAllOwned(rows: seq<PhoneNumber>, userId: int, params: SearchParams, r: seq<PhoneNumber>)
    requires NoFilters(params)
    requires forall n :: multiset(r)[n] == if Matches(userId, params, n) then multiset(rows)[n] else 0
    ensures multiset(r) == multiset(PhoneNumbersByUser(rows, userId))
  {
    var byUser := PhoneNumbersByUser(rows, userId);
    forall n ensures multiset(r)[n] == multiset(byUser)[n] {
      NoFiltersMatchesOwner(userId, params, n);
    }
    assert multiset(r) == multiset(byUser);
  }

  lemma MatchesOwned(userId: int, params: SearchParams, n: PhoneNumber)
    ensures Matches(userId, params, n) ==> n.userId == userId
  {
  }

  /** With no filter supplied, a number matches exactly when it is the user's. */
  lemma NoFiltersMatchesOwner(userId: int, params: SearchParams, n: PhoneNumber)
    requires NoFilters(params)
    ensures Matches(userId, params, n) <==> n.userId == userId
  {
  }

  /** `p2` supplies every filter `p1` supplies, with the same value (and perhaps more). */
  predicate Refines(p2: SearchParams, p1: SearchParams) {
    && (p1.operationId != 0 ==> p2.operationId == p1.operationId)
    && (p1.operator != "" ==> p2.operator == p1.operator)
    && (p1.status != "" ==> p2.status == p1.status)
    && (p1.device != "" ==> p2.device == p1.device)
    && (p1.query != "" ==> p2.query == p1.query)
  }

  /** Supplying more filters only narrows a search: whatever the narrower search
      returns, and as often, the wider one returns too. */
  lemma MoreFiltersNarrow(rows: seq<PhoneNumber>, userId: int, p1: SearchParams, p2: SearchParams)
    requires Refines(p2, p1)
    ensures forall n :: Matches(userId, p2, n) ==> Matches(userId, p1, n)
    ensures multiset(Filter(rows, (n: PhoneNumber) => Matches(userId, p2, n)))
            <= multiset(Filter(rows, (n: PhoneNumber) => Matches(userId, p1, n)))
  {
    FilterNarrows(rows, (n: PhoneNumber) => Matches(userId, p1, n), (n: PhoneNumber) => Matches(userId, p2, n));
  }

  /** The free-text filter matches when the text occurs at some offset of the number,
      the device or the notes. */
  lemma QueryMatchesAnyField(n: PhoneNumber, q: string)
    ensures Holds(QueryLike(q), n) <==>
      (exists k :: 0 <= k <= |n.number| && q <= n.number[k..]) ||
      (n.device.Some? && exists k :: 0 <= k <= |n.device.value| && q <= n.device.value[k..]) ||
      (n.notes.Some? && exists k :: 0 <= k <= |n.notes.value| && q <= n.notes.value[k..])
  {
    ContainsAt(n.number, q);
    if n.device.Some? { ContainsAt(n.device.value, q); }
    if n.notes.Some? { ContainsAt(n.notes.value, q); }
  }
}
