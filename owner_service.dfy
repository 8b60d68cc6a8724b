/** OfficeOwnerService: monthly revenue of an owner's offices over a six-month
    window, and how many of their rooms are rented out. */
module OfficeOwner {
  import opened Errors
  import opened Dates
  import opened Leases
  import opened Offices

  /** The window covers the current month and the PERIOD months before it. */
  const PERIOD: nat := 5

  /** An office row of the repository: its id and its columns. */
  datatype OfficeRow = OfficeRow(id: int, office: OfficeState)

  datatype RentalStatus = RentalStatus(totalRoomCount: int, proceedingCount: nat)

  /** Dates the service can be created on: a real calendar day whose window
      months all print as four-digit years. */
  predicate ValidToday(today: Date) {
    ValidDate(today) && 1 <= today.year <= 9999
  }

  /** startDate: the first day of the month PERIOD months before today. */
  function StartDate(today: Date): (start: Date)
    ensures ValidDate(start) && start.day == 1
    ensures MonthIndex(MonthOf(start)) == MonthIndex(MonthOf(today)) - PERIOD
  {
    var ym := PlusMonths(MonthOf(today), -(PERIOD as int));
    Date(ym.year, ym.month, 1)
  }

  /* ---------------- the revenue window ---------------- */

  /** Months from the window's first month to the month of d. */
  function Offset(start: YearMonth, d: Date): int {
    MonthIndex(MonthOf(d)) - MonthIndex(start)
  }

  predicate InWindow(start: YearMonth, d: Date) {
    ValidDate(d) && 0 <= Offset(start, d) <= PERIOD
  }

  /** A first month whose whole window prints as "yyyy-MM". */
  predicate KeyableWindow(start: YearMonth) {
    ValidMonth(start) && 0 <= start.year && MonthIndex(start) + PERIOD < 12 * 10000
  }

  function WindowMonth(start: YearMonth, i: int): (ym: YearMonth)
    requires KeyableWindow(start) && 0 <= i <= PERIOD
    ensures ValidMonth(ym) && FourDigitYear(ym)
    ensures MonthIndex(ym) == MonthIndex(start) + i
  {
    PlusMonths(start, i)
  }

  /** startDate.plusMonths(i).toString().substring(0, 7) */
  function WindowKey(start: YearMonth, i: int): string
    requires KeyableWindow(start) && 0 <= i <= PERIOD
  {
    MonthKey(WindowMonth(start, i))
  }

  /** The keys of the first n months of the window. */
  function WindowKeysUpTo(start: YearMonth, n: nat): set<string>
    requires KeyableWindow(start) && n <= PERIOD + 1
  {
    if n == 0 then {} else WindowKeysUpTo(start, n - 1) + {WindowKey(start, n - 1)}
  }

  function WindowKeys(start: YearMonth): set<string>
    requires KeyableWindow(start)
  {
    WindowKeysUpTo(start, PERIOD + 1)
  }

  /** A month's key is not among the keys of the months before it. */
  lemma {:induction false} KeyNotInEarlierKeys(start: YearMonth, i: nat, n: nat)
    requires KeyableWindow(start) && n <= i <= PERIOD
    ensures WindowKey(start, i) !in WindowKeysUpTo(start, n)
  {
    if n > 0 {
      KeyNotInEarlierKeys(start, i, n - 1);
      if WindowKey(start, n - 1) == WindowKey(start, i) {
        WindowKeysDistinct(start, n - 1, i);
      }
    }
  }

  /** The first n months have n different keys. */
  lemma {:induction false} WindowKeysUpToSize(start: YearMonth, n: nat)
    requires KeyableWindow(start) && n <= PERIOD + 1
    ensures |WindowKeysUpTo(start, n)| == n
  {
    if n > 0 {
      WindowKeysUpToSize(start, n - 1);
      KeyNotInEarlierKeys(start, n - 1, n - 1);
    }
  }

  lemma {:induction false} WindowKeysUpToHas(start: YearMonth, k: nat, n: nat)
    requires KeyableWindow(start) && k < n <= PERIOD + 1
    ensures WindowKey(start, k) in WindowKeysUpTo(start, n)
  {
    if k < n - 1 {
      WindowKeysUpToHas(start, k, n - 1);
    }
  }

  lemma WindowKeysDistinct(start: YearMonth, i: int, j: int)
    requires KeyableWindow(start) && 0 <= i <= PERIOD && 0 <= j <= PERIOD
    requires WindowKey(start, i) == WindowKey(start, j)
    ensures i == j
  {
    MonthKeyInjective(WindowMonth(start, i), WindowMonth(start, j));
  }

  /** The key of a date inside the window is the key of its bucket. */
  lemma DateKeyInWindow(start: YearMonth, d: Date)
    requires KeyableWindow(start) && InWindow(start, d)
    ensures FourDigitYear(MonthOf(d))
    ensures MonthKey(MonthOf(d)) == WindowKey(start, Offset(start, d))
  {
    var m := WindowMonth(start, Offset(start, d));
    MonthIndexInjective(m, MonthOf(d));
  }

  /* ---------------- revenue as a specification ---------------- */

  function Last(leases: seq<Lease>): Lease
    requires leases != []
  {
    leases[|leases| - 1]
  }

  function Init(leases: seq<Lease>): seq<Lease>
    requires leases != []
  {
    leases[..|leases| - 1]
  }

  /** The sum of the prices of the leases that start in month i of the window. */
  function BucketTotal(leases: seq<Lease>, start: YearMonth, i: int): int {
    if leases == [] then 0
    else BucketTotal(Init(leases), start, i)
         + (if Offset(start, Last(leases).startDate) == i then Last(leases).price else 0)
  }

  function TotalPrice(leases: seq<Lease>): int {
    if leases == [] then 0 else TotalPrice(Init(leases)) + Last(leases).price
  }

  /** The buckets 0 .. n-1 added up. */
  function SumBuckets(leases: seq<Lease>, start: YearMonth, n: nat): int {
    if n == 0 then 0 else SumBuckets(leases, start, n - 1) + BucketTotal(leases, start, n - 1)
  }

  lemma {:induction false} SumBucketsSnoc(leases: seq<Lease>, l: Lease, start: YearMonth, n: nat)
    ensures SumBuckets(leases + [l], start, n)
            == SumBuckets(leases, start, n) + (if 0 <= Offset(start, l.startDate) < n then l.price else 0)
  {
    var ls := leases + [l];
    assert Init(ls) == leases && Last(ls) == l;
    if n > 0 {
      SumBucketsSnoc(leases, l, start, n - 1);
    }
  }

  lemma {:induction false} SumBucketsEmpty(start: YearMonth, n: nat)
    ensures SumBuckets([], start, n) == 0
  {
    if n > 0 {
      SumBucketsEmpty(start, n - 1);
    }
  }

  /** Every lease lands in exactly one bucket, so the buckets add up to the total price. */
  lemma {:induction false} BucketsPartitionTotal(leases: seq<Lease>, start: YearMonth)
    requires forall j :: 0 <= j < |leases| ==> 0 <= Offset(start, leases[j].startDate) <= PERIOD
    ensures SumBuckets(leases, start, PERIOD + 1) == TotalPrice(leases)
  {
    if leases != [] {
      assert forall j :: 0 <= j < |Init(leases)| ==> Init(leases)[j] == leases[j];
      BucketsPartitionTotal(Init(leases), start);
      assert leases == Init(leases) + [Last(leases)];
      SumBucketsSnoc(Init(leases), Last(leases), start, PERIOD + 1);
    } else {
      SumBucketsEmpty(start, PERIOD + 1);
    }
  }

  /** The revenue map's six values added up in window order. */
  function WindowSum(revenue: map<string, int>, start: YearMonth, n: nat): int
    requires KeyableWindow(start) && n <= PERIOD + 1
    requires forall i :: 0 <= i < n ==> WindowKey(start, i) in revenue
  {
    if n == 0 then 0 else WindowSum(revenue, start, n - 1) + revenue[WindowKey(start, n - 1)]
  }

  lemma {:induction false} WindowSumIsSumBuckets(revenue: map<string, int>, leases: seq<Lease>, start: YearMonth, n: nat)
    requires KeyableWindow(start) && n <= PERIOD + 1
    requires forall i :: 0 <= i < n ==> WindowKey(start, i) in revenue
    requires forall i :: 0 <= i < n ==> revenue[WindowKey(start, i)] == BucketTotal(leases, start, i)
    ensures WindowSum(revenue, start, n) == SumBuckets(leases, start, n)
  {
    if n > 0 {
      WindowSumIsSumBuckets(revenue, leases, start, n - 1);
    }
  }

  /** Whether a map holds exactly the first n window keys, all at 0. */
  predicate ZeroedUpTo(revenue: map<string, int>, start: YearMonth, n: nat)
    requires KeyableWindow(start) && n <= PERIOD + 1
  {
    && revenue.Keys == WindowKeysUpTo(start, n)
    && (forall key :: key in revenue ==> revenue[key] == 0)
  }

  /** The first loop of getRevenue, run to n (getRevenue passes PERIOD + 1): the first
      n month keys of the window, each mapped to 0. */
  method ZeroBuckets(start: YearMonth, n: nat) returns (revenue: map<string, int>)
    requires KeyableWindow(start) && n <= PERIOD + 1
    ensures ZeroedUpTo(revenue, start, n)
  {
    revenue := map[];
    var i := 0;
    while i < n
      invariant 0 <= i <= n
      invariant ZeroedUpTo(revenue, start, i)
    {
      assert WindowKeysUpTo(start, i + 1) == WindowKeysUpTo(start, i) + {WindowKey(start, i)};
      revenue := revenue[WindowKey(start, i) := 0];
      i := i + 1;
    }
  }

  lemma WindowKeysHas(start: YearMonth)
    requires KeyableWindow(start)
    ensures forall k :: 0 <= k <= PERIOD ==> WindowKey(start, k) in WindowKeys(start)
  {
    forall k | 0 <= k <= PERIOD
      ensures WindowKey(start, k) in WindowKeys(start)
    {
      WindowKeysUpToHas(start, k, PERIOD + 1);
    }
  }

  /** Adding one more lease's price to the bucket of its month keeps every bucket
      equal to the total of the leases seen so far. */
  lemma {:induction false} AddLeaseStep(
    revenue: map<string, int>, seen: seq<Lease>, lease: Lease, start: YearMonth)
    requires KeyableWindow(start) && InWindow(start, lease.startDate)
    requires forall k :: 0 <= k <= PERIOD ==> WindowKey(start, k) in revenue
    requires forall k :: 0 <= k <= PERIOD ==> revenue[WindowKey(start, k)] == BucketTotal(seen, start, k)
    ensures FourDigitYear(MonthOf(lease.startDate))
    ensures MonthKey(MonthOf(lease.startDate)) in revenue
    ensures var key := MonthKey(MonthOf(lease.startDate));
            var next := revenue[key := revenue[key] + lease.price];
            forall k :: 0 <= k <= PERIOD ==> next[WindowKey(start, k)] == BucketTotal(seen + [lease], start, k)
  {
    DateKeyInWindow(start, lease.startDate);
    var key := MonthKey(MonthOf(lease.startDate));
    var next := revenue[key := revenue[key] + lease.price];
    assert Init(seen + [lease]) == seen && Last(seen + [lease]) == lease;
    forall k | 0 <= k <= PERIOD
      ensures next[WindowKey(start, k)] == BucketTotal(seen + [lease], start, k)
    {
      if WindowKey(start, k) == key {
        WindowKeysDistinct(start, k, Offset(start, lease.startDate));
      }
    }
  }

  /** Buckets holding the per-month totals add up to the total price of the leases. */
  lemma RevenueAddsUp(revenue: map<string, int>, leases: seq<Lease>, start: YearMonth)
    requires KeyableWindow(start)
    requires forall l :: l in leases ==> InWindow(start, l.startDate)
    requires forall k :: 0 <= k <= PERIOD ==> WindowKey(start, k) in revenue
    requires forall k :: 0 <= k <= PERIOD ==> revenue[WindowKey(start, k)] == BucketTotal(leases, start, k)
    ensures WindowSum(revenue, start, PERIOD + 1) == TotalPrice(leases)
  {
    assert forall j :: 0 <= j < |leases| ==> leases[j] in leases;
    BucketsPartitionTotal(leases, start);
    WindowSumIsSumBuckets(revenue, leases, start, PERIOD + 1);
  }

  /** getRevenue: six month keys set to 0, then each lease's price added to the
      bucket of its start month. The source looks each key up with `get`, which
      would be null for a month outside the window; the query rules that out. */
  method GetRevenue(start: YearMonth, leases: seq<Lease>) returns (revenue: map<string, int>)
    requires KeyableWindow(start)
    requires forall l :: l in leases ==> InWindow(start, l.startDate)
    ensures revenue.Keys == WindowKeys(start)
    ensures |revenue| == PERIOD + 1
    ensures forall i :: 0 <= i <= PERIOD ==> WindowKey(start, i) in revenue
    ensures forall i :: 0 <= i <= PERIOD ==> revenue[WindowKey(start, i)] == BucketTotal(leases, start, i)
    ensures WindowSum(revenue, start, PERIOD + 1) == TotalPrice(leases)
  {
    revenue := ZeroBuckets(start, PERIOD + 1);
    WindowKeysUpToSize(start, PERIOD + 1);
    assert |revenue| == |revenue.Keys|;
    WindowKeysHas(start);
    assert forall k :: 0 <= k <= PERIOD ==> revenue[WindowKey(start, k)] == BucketTotal([], start, k);

    for j := 0 to |leases|
      invariant revenue.Keys == WindowKeys(start)
      invariant forall k :: 0 <= k <= PERIOD ==> WindowKey(start, k) in revenue
      invariant forall k :: 0 <= k <= PERIOD ==> revenue[WindowKey(start, k)] == BucketTotal(leases[..j], start, k)
    {
      var lease := leases[j];
      AddLeaseStep(revenue, leases[..j], lease, start);
      var key := MonthKey(MonthOf(lease.startDate));
      revenue := revenue[key := revenue[key] + lease.price];
      assert leases[..j + 1] == leases[..j] + [lease];
    }
    assert leases[..|leases|] == leases;
    RevenueAddsUp(revenue, leases, start);
  }

  /* ---------------- the repository queries ---------------- */

  /** The lease query: the given offices, a start date in [startDate, today]
      (Between is inclusive), and status EXPIRED or PROCEEDING. */
  predicate CountsForRevenue(l: Lease, officeIds: set<int>, startDate: Date, today: Date) {
    && l.officeId in officeIds
    && DateLe(startDate, l.startDate) && DateLe(l.startDate, today)
    && (l.status == EXPIRED || l.status == PROCEEDING)
  }

  function RevenueLeases(leases: seq<Lease>, officeIds: set<int>, startDate: Date, today: Date): (r: seq<Lease>)
    ensures forall l :: l in r <==> l in leases && CountsForRevenue(l, officeIds, startDate, today)
    ensures forall l :: multiset(r)[l] == if CountsForRevenue(l, officeIds, startDate, today) then multiset(leases)[l] else 0
  {
    if leases == [] then []
    else
      assert leases == [leases[0]] + leases[1..];
      assert multiset(leases) == multiset{leases[0]} + multiset(leases[1..]);
      (if CountsForRevenue(leases[0], officeIds, startDate, today) then [leases[0]] else [])
      + RevenueLeases(leases[1..], officeIds, startDate, today)
  }

  predicate ValidLeaseDates(leases: seq<Lease>) {
    forall j :: 0 <= j < |leases| ==> ValidDate(leases[j].startDate)
  }

  /** The window of a valid today prints as keys, and the query only returns
      leases whose start month has a bucket. */
  lemma QueriedLeasesInWindow(leases: seq<Lease>, officeIds: set<int>, today: Date)
    requires ValidToday(today) && ValidLeaseDates(leases)
    ensures KeyableWindow(MonthOf(StartDate(today)))
    ensures forall l :: l in RevenueLeases(leases, officeIds, StartDate(today), today) ==>
                          InWindow(MonthOf(StartDate(today)), l.startDate)
  {
    var startDate := StartDate(today);
    var sel := RevenueLeases(leases, officeIds, startDate, today);
    forall l | l in sel
      ensures InWindow(MonthOf(startDate), l.startDate)
    {
      var j :| 0 <= j < |leases| && leases[j] == l;
      DateLeMonthIndex(startDate, l.startDate);
      DateLeMonthIndex(l.startDate, today);
    }
  }

  predicate Owns(offices: seq<OfficeRow>, officeId: int, ownerId: int) {
    exists j :: 0 <= j < |offices| && offices[j].id == officeId && offices[j].office.ownerId == ownerId
  }

  /** findByIdAndOwnerId */
  function FindOwned(offices: seq<OfficeRow>, officeId: int, ownerId: int): (r: Option<OfficeRow>)
    ensures r.Some? <==> Owns(offices, officeId, ownerId)
    ensures r.Some? ==> r.value in offices && r.value.id == officeId && r.value.office.ownerId == ownerId
  {
    if offices == [] then None
    else if offices[0].id == officeId && offices[0].office.ownerId == ownerId then Some(offices[0])
    else
      var r := FindOwned(offices[1..], officeId, ownerId);
      assert Owns(offices, officeId, ownerId) ==> Owns(offices[1..], officeId, ownerId) by {
        if Owns(offices, officeId, ownerId) {
          var j :| 0 <= j < |offices| && offices[j].id == officeId && offices[j].office.ownerId == ownerId;
          assert j > 0 && offices[1..][j - 1] == offices[j];
        }
      }
      assert Owns(offices[1..], officeId, ownerId) ==> Owns(offices, officeId, ownerId) by {
        if Owns(offices[1..], officeId, ownerId) {
          var j :| 0 <= j < |offices| - 1 && offices[1..][j].id == officeId && offices[1..][j].office.ownerId == ownerId;
          assert offices[j + 1] == offices[1..][j];
        }
      }
      r
  }

  /** findByOwnerId */
  function OwnedOffices(offices: seq<OfficeRow>, ownerId: int): (r: seq<OfficeRow>)
    ensures forall row :: row in r <==> row in offices && row.office.ownerId == ownerId
  {
    if offices == [] then []
    else (if offices[0].office.ownerId == ownerId then [offices[0]] else []) + OwnedOffices(offices[1..], ownerId)
  }

  /** Selecting an owner's offices keeps the ids distinct. */
  lemma {:induction false} OwnedOfficesUnique(offices: seq<OfficeRow>, ownerId: int)
    requires UniqueIds(offices)
    ensures UniqueIds(OwnedOffices(offices, ownerId))
  {
    if offices != [] {
      var tail := offices[1..];
      assert UniqueIds(tail) by {
        forall i, j | 0 <= i < j < |tail| ensures tail[i].id != tail[j].id {
          assert tail[i] == offices[i + 1] && tail[j] == offices[j + 1];
        }
      }
      OwnedOfficesUnique(tail, ownerId);
      var rest := OwnedOffices(tail, ownerId);
      if offices[0].office.ownerId == ownerId {
        var r := [offices[0]] + rest;
        forall k | 0 <= k < |rest| ensures rest[k].id != offices[0].id {
          assert rest[k] in tail;
          var m :| 0 <= m < |tail| && tail[m] == rest[k];
          assert offices[m + 1] == rest[k];
        }
        forall i, j | 0 <= i < j < |r| ensures r[i].id != r[j].id {
          assert r[j] == rest[j - 1];
          if i > 0 {
            assert r[i] == rest[i - 1];
          }
        }
        assert OwnedOffices(offices, ownerId) == r;
      } else {
        assert OwnedOffices(offices, ownerId) == rest;
      }
    }
  }

  predicate UniqueIds(rows: seq<OfficeRow>) {
    forall i, j :: 0 <= i < j < |rows| ==> rows[i].id != rows[j].id
  }

  function IdsOf(rows: seq<OfficeRow>): (ids: set<int>)
    ensures forall k :: 0 <= k < |rows| ==> rows[k].id in ids
    ensures forall id :: id in ids ==> exists k :: 0 <= k < |rows| && rows[k].id == id
  {
    if rows == [] then {}
    else
      var rest := IdsOf(rows[1..]);
      assert forall id :: id in rest ==> exists k :: 0 <= k < |rows| && rows[k].id == id by {
        forall id | id in rest ensures exists k :: 0 <= k < |rows| && rows[k].id == id {
          var k :| 0 <= k < |rows| - 1 && rows[1..][k].id == id;
          assert rows[k + 1].id == id;
        }
      }
      assert forall k :: 1 <= k < |rows| ==> rows[k].id in rest by {
        forall k | 1 <= k < |rows| ensures rows[k].id in rest {
          assert rows[1..][k - 1] == rows[k];
        }
      }
      {rows[0].id} + rest
  }

  /** countByOfficeInAndLeaseStatus(offices, PROCEEDING) */
  function ProceedingIn(leases: seq<Lease>, officeIds: set<int>): (n: nat)
    ensures n <= |leases|
  {
    if leases == [] then 0
    else (if leases[0].status == PROCEEDING && leases[0].officeId in officeIds then 1 else 0)
         + ProceedingIn(leases[1..], officeIds)
  }

  /** The positions, from a given one on, of the PROCEEDING leases of the given offices. */
  function ProceedingPositions(leases: seq<Lease>, officeIds: set<int>, from: nat): set<int> {
    set j | from <= j < |leases| && leases[j].status == PROCEEDING && leases[j].officeId in officeIds
  }

  lemma {:induction false} ProceedingInFrom(leases: seq<Lease>, officeIds: set<int>, from: nat)
    requires from <= |leases|
    ensures ProceedingIn(leases[from..], officeIds) == |ProceedingPositions(leases, officeIds, from)|
    decreases |leases| - from
  {
    if from == |leases| {
      assert ProceedingPositions(leases, officeIds, from) == {};
    } else {
      ProceedingInFrom(leases, officeIds, from + 1);
      assert leases[from..][1..] == leases[from + 1..];
      var here: set<int> := if leases[from].status == PROCEEDING && leases[from].officeId in officeIds then {from} else {};
      assert ProceedingPositions(leases, officeIds, from) == here + ProceedingPositions(leases, officeIds, from + 1);
    }
  }

  /** The count query counts exactly the PROCEEDING leases of the given offices. */
  lemma ProceedingInCounts(leases: seq<Lease>, officeIds: set<int>)
    ensures ProceedingIn(leases, officeIds)
            == |set j | 0 <= j < |leases| && leases[j].status == PROCEEDING && leases[j].officeId in officeIds|
  {
    ProceedingInFrom(leases, officeIds, 0);
    assert leases[0..] == leases;
  }

  lemma {:induction false} ProceedingInNone(leases: seq<Lease>)
    ensures ProceedingIn(leases, {}) == 0
  {
    if leases != [] {
      ProceedingInNone(leases[1..]);
    }
  }

  /** Counting over two disjoint sets of offices is counting over each. */
  lemma {:induction false} ProceedingInDisjointUnion(leases: seq<Lease>, a: set<int>, b: set<int>)
    requires a !! b
    ensures ProceedingIn(leases, a + b) == ProceedingIn(leases, a) + ProceedingIn(leases, b)
  {
    if leases != [] {
      ProceedingInDisjointUnion(leases[1..], a, b);
    }
  }

  function TotalRooms(rows: seq<OfficeRow>): int {
    if rows == [] then 0 else rows[0].office.maxRoomCount + TotalRooms(rows[1..])
  }

  /** The per-office counts of a list of offices, added up. */
  function SumProceeding(rows: seq<OfficeRow>, leases: seq<Lease>): int {
    if rows == [] then 0 else ProceedingIn(leases, {rows[0].id}) + SumProceeding(rows[1..], leases)
  }

  /** The overall count is the sum of the single-office counts when no office is listed twice. */
  lemma {:induction false} OverallIsSumOfOffices(rows: seq<OfficeRow>, leases: seq<Lease>)
    requires UniqueIds(rows)
    ensures ProceedingIn(leases, IdsOf(rows)) == SumProceeding(rows, leases)
  {
    if rows != [] {
      var rest := rows[1..];
      assert UniqueIds(rest) by {
        forall i, j | 0 <= i < j < |rest| ensures rest[i].id != rest[j].id {
          assert rest[i] == rows[i + 1] && rest[j] == rows[j + 1];
        }
      }
      OverallIsSumOfOffices(rest, leases);
      assert rows[0].id !in IdsOf(rest) by {
        forall k | 0 <= k < |rest| ensures rest[k].id != rows[0].id {
          assert rest[k] == rows[k + 1];
        }
      }
      assert IdsOf(rows) == {rows[0].id} + IdsOf(rest);
      ProceedingInDisjointUnion(leases, {rows[0].id}, IdsOf(rest));
    } else {
      ProceedingInNone(leases);
    }
  }

  /* ---------------- the service operations ---------------- */

  /** getOfficeRevenue: the office must belong to the caller; its EXPIRED and
      PROCEEDING leases starting in the window are bucketed by start month. */
  method GetOfficeRevenue(offices: seq<OfficeRow>, leases: seq<Lease>, officeId: int, ownerId: int, today: Date)
    returns (r: Result<map<string, int>>)
    requires ValidToday(today) && ValidLeaseDates(leases)
    ensures r.Err? <==> !Owns(offices, officeId, ownerId)
    ensures r.Err? ==> r.error == OFFICE_NOT_OWNED_BY_OWNER
    ensures r.Ok? ==>
              var start := MonthOf(StartDate(today));
              var sel := RevenueLeases(leases, {officeId}, StartDate(today), today);
              && KeyableWindow(start)
              && r.value.Keys == WindowKeys(start) && |r.value| == PERIOD + 1
              && (forall i :: 0 <= i <= PERIOD ==>
                    WindowKey(start, i) in r.value && r.value[WindowKey(start, i)] == BucketTotal(sel, start, i))
              && WindowSum(r.value, start, PERIOD + 1) == TotalPrice(sel)
  {
    var found := FindOwned(offices, officeId, ownerId);
    if found.None? {
      return Err(OFFICE_NOT_OWNED_BY_OWNER);
    }
    var startDate := StartDate(today);
    var sel := RevenueLeases(leases, {found.value.id}, startDate, today);
    QueriedLeasesInWindow(leases, {found.value.id}, today);
    var revenue := GetRevenue(MonthOf(startDate), sel);
    return Ok(revenue);
  }

  /** getOfficesTotalRevenue: the same buckets over every office the caller owns. */
  method GetOfficesTotalRevenue(offices: seq<OfficeRow>, leases: seq<Lease>, ownerId: int, today: Date)
    returns (revenue: map<string, int>)
    requires ValidToday(today) && ValidLeaseDates(leases)
    ensures var start := MonthOf(StartDate(today));
            var sel := RevenueLeases(leases, IdsOf(OwnedOffices(offices, ownerId)), StartDate(today), today);
            && KeyableWindow(start)
            && revenue.Keys == WindowKeys(start) && |revenue| == PERIOD + 1
            && (forall i :: 0 <= i <= PERIOD ==>
                  WindowKey(start, i) in revenue && revenue[WindowKey(start, i)] == BucketTotal(sel, start, i))
            && WindowSum(revenue, start, PERIOD + 1) == TotalPrice(sel)
  {
    var owned := OwnedOffices(offices, ownerId);
    var startDate := StartDate(today);
    var sel := RevenueLeases(leases, IdsOf(owned), startDate, today);
    QueriedLeasesInWindow(leases, IdsOf(owned), today);
    revenue := GetRevenue(MonthOf(startDate), sel);
  }

  /** getOfficeRentalStatus without the floating-point rate: the office's room
      count and how many of its leases are PROCEEDING. */
  function GetOfficeRentalStatus(offices: seq<OfficeRow>, leases: seq<Lease>, officeId: int, ownerId: int)
    : (r: Result<RentalStatus>)
    ensures r.Err? <==> !Owns(offices, officeId, ownerId)
    ensures r.Err? ==> r.error == OFFICE_NOT_OWNED_BY_OWNER
    ensures r.Ok? ==> exists row :: row in offices && row.id == officeId && row.office.ownerId == ownerId
                                   && r.value.totalRoomCount == row.office.maxRoomCount
    ensures r.Ok? ==> r.value.proceedingCount == ProceedingIn(leases, {officeId})
  {
    match FindOwned(offices, officeId, ownerId)
    case None => Err(OFFICE_NOT_OWNED_BY_OWNER)
    case Some(row) => Ok(RentalStatus(row.office.maxRoomCount, ProceedingIn(leases, {row.id})))
  }

  /** getOfficeOverallRentalStatus without the floating-point rate. */
  function GetOfficeOverallRentalStatus(offices: seq<OfficeRow>, leases: seq<Lease>, ownerId: int): (r: RentalStatus)
    ensures UniqueIds(offices) ==>
              r.proceedingCount == SumProceeding(OwnedOffices(offices, ownerId), leases)
    ensures r.totalRoomCount == TotalRooms(OwnedOffices(offices, ownerId))
  {
    var owned := OwnedOffices(offices, ownerId);
    assert UniqueIds(offices) ==> ProceedingIn(leases, IdsOf(owned)) == SumProceeding(owned, leases) by {
      if UniqueIds(offices) {
        OwnedOfficesUnique(offices, ownerId);
        OverallIsSumOfOffices(owned, leases);
      }
    }
    RentalStatus(TotalRooms(owned), ProceedingIn(leases, IdsOf(owned)))
  }
}
