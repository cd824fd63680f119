/** The dashboard summary: the numbers in scope, partitioned into one bucket per status. */
module Dashboard {
  import opened Schema
  import opened Tables
  import opened Queries

  datatype ByStatus = ByStatus(
    active: seq<PhoneNumber>, warming: seq<PhoneNumber>, blocked: seq<PhoneNumber>,
    analysis: seq<PhoneNumber>, off: seq<PhoneNumber>, restricted: seq<PhoneNumber>,
    unknown: seq<PhoneNumber>)

  datatype DashboardStats = DashboardStats(total: nat, byStatus: ByStatus, numbers: seq<PhoneNumber>)

  /** The bucket a status selects. */
  function Bucket(b: ByStatus, s: Status): seq<PhoneNumber> {
    match s
    case Active => b.active
    case Warming => b.warming
    case Blocked => b.blocked
    case Analysis => b.analysis
    case Off => b.off
    case Restricted => b.restricted
    case Unknown => b.unknown
  }

  function BucketSizes(b: ByStatus): nat {
    |b.active| + |b.warming| + |b.blocked| + |b.analysis| + |b.off| + |b.restricted| + |b.unknown|
  }

  /** `numbers.filter(n => n.status === s)`. */
  function WithStatus(numbers: seq<PhoneNumber>, s: Status): (r: seq<PhoneNumber>)
    ensures forall n :: multiset(r)[n] == if n.status == s then multiset(numbers)[n] else 0
  {
    Filter(numbers, (n: PhoneNumber) => n.status == s)
  }

  /** The number of numbers with status `s`. */
  function CountStatus(numbers: seq<PhoneNumber>, s: Status): nat {
    if numbers == [] then 0
    else (if numbers[0].status == s then 1 else 0) + CountStatus(numbers[1..], s)
  }

  lemma {:induction false} WithStatusCount(numbers: seq<PhoneNumber>, s: Status)
    ensures |WithStatus(numbers, s)| == CountStatus(numbers, s)
  {
    if numbers != [] {
      WithStatusCount(numbers[1..], s);
    }
  }

  /** Each number has exactly one of the seven statuses, so the seven counts add up
      to the number of numbers. */
  lemma {:induction false} CountsCover(numbers: seq<PhoneNumber>)
    ensures CountStatus(numbers, Active) + CountStatus(numbers, Warming) + CountStatus(numbers, Blocked) +
            CountStatus(numbers, Analysis) + CountStatus(numbers, Off) + CountStatus(numbers, Restricted) +
            CountStatus(numbers, Unknown) == |numbers|
  {
    if numbers != [] {
      CountsCover(numbers[1..]);
    }
  }

  /** The seven status filters together keep every number exactly once. */
  lemma StatusCountsCover(numbers: seq<PhoneNumber>)
    ensures |WithStatus(numbers, Active)| + |WithStatus(numbers, Warming)| + |WithStatus(numbers, Blocked)| +
            |WithStatus(numbers, Analysis)| + |WithStatus(numbers, Off)| + |WithStatus(numbers, Restricted)| +
            |WithStatus(numbers, Unknown)| == |numbers|
  {
    WithStatusCount(numbers, Active);
    WithStatusCount(numbers, Warming);
    WithStatusCount(numbers, Blocked);
    WithStatusCount(numbers, Analysis);
    WithStatusCount(numbers, Off);
    WithStatusCount(numbers, Restricted);
    WithStatusCount(numbers, Unknown);
    CountsCover(numbers);
  }

  lemma BucketIsFilter(numbers: seq<PhoneNumber>, b: ByStatus, s: Status)
    requires b == ByStatus(
      WithStatus(numbers, Active), WithStatus(numbers, Warming), WithStatus(numbers, Blocked),
      WithStatus(numbers, Analysis), WithStatus(numbers, Off), WithStatus(numbers, Restricted),
      WithStatus(numbers, Unknown))
    ensures Bucket(b, s) == WithStatus(numbers, s)
  {
    match s
    case Active =>
    case Warming =>
    case Blocked =>
    case Analysis =>
    case Off =>
    case Restricted =>
    case Unknown =>
  }

  /** One bucket per status. Every number lands in exactly one of the seven
      buckets, each as often as listed, so their sizes add up to the number of
      numbers. */
  function Partition(numbers: seq<PhoneNumber>): (b: ByStatus)
    ensures forall s: Status, n :: multiset(Bucket(b, s))[n] == if n.status == s then multiset(numbers)[n] else 0
    ensures BucketSizes(b) == |numbers|
  {
    var b := ByStatus(
      WithStatus(numbers, Active), WithStatus(numbers, Warming), WithStatus(numbers, Blocked),
      WithStatus(numbers, Analysis), WithStatus(numbers, Off), WithStatus(numbers, Restricted),
      WithStatus(numbers, Unknown));
    assert BucketSizes(b) == |numbers| by {
      StatusCountsCover(numbers);
    }
    forall s: Status ensures Bucket(b, s) == WithStatus(numbers, s) {
      BucketIsFilter(numbers, b, s);
    }
    b
  }

  /** The summary for a user, or for one operation when an operation id is given
      (a truthy one: 0 means none). With an operation id the user id is not
      consulted: every number of the operation counts, whoever owns it. */
  function GetDashboardStats(phones: seq<PhoneNumber>, userId: int, operationId: int): (d: DashboardStats)
    ensures operationId != 0 ==>
      forall n :: multiset(d.numbers)[n] == if n.operationId == operationId then multiset(phones)[n] else 0
    ensures operationId == 0 ==>
      forall n :: multiset(d.numbers)[n] == if n.userId == userId then multiset(phones)[n] else 0
    ensures d.total == |d.numbers|
    ensures BucketSizes(d.byStatus) == d.total
    ensures forall s: Status, n :: n in Bucket(d.byStatus, s) <==> n in d.numbers && n.status == s
  {
    var numbers := if operationId != 0 then PhoneNumbersByOperation(phones, operationId)
                   else PhoneNumbersByUser(phones, userId);
    var buckets := Partition(numbers);
    forall s: Status, n ensures n in Bucket(buckets, s) <==> n in numbers && n.status == s {
      if n in Bucket(buckets, s) {
        assert multiset(Bucket(buckets, s))[n] > 0;
      }
      if n in numbers && n.status == s {
        assert multiset(numbers)[n] > 0;
      }
    }
    DashboardStats(|numbers|, buckets, numbers)
  }

  /** No number is in two buckets. */
  lemma BucketsDisjoint(phones: seq<PhoneNumber>, userId: int, operationId: int, s1: Status, s2: Status, n: PhoneNumber)
    requires s1 != s2
    ensures !(n in Bucket(GetDashboardStats(phones, userId, operationId).byStatus, s1) &&
              n in Bucket(GetDashboardStats(phones, userId, operationId).byStatus, s2))
  {
  }
}
