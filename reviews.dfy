/** ReviewService: submitting a review for an expired lease (a one-shot transition
    of the lease to REVIEWED plus the office's running rating totals), and the
    owner checks of update and delete. */
module Reviews {
  import opened Errors
  import opened Leases
  import opened Offices
  import Bookmarks

  /** Review.from(lease, customerId, request): the lease's office, the caller and the rating. */
  datatype Review = Review(id: int, leaseId: int, customerId: int, officeId: int, rate: int, description: string)

  datatype SubmitRequest = SubmitRequest(customerId: int, leaseId: int)

  /* ---------------- the submit gate ---------------- */

  /** The first check of submit that fails, in the order the source makes them:
      the lease must exist, belong to the caller, not be reviewed yet, and be expired. */
  function SubmitError(leases: map<int, Lease>, q: SubmitRequest): (e: Option<ErrorCode>)
    ensures e.None? <==> q.leaseId in leases && leases[q.leaseId].customerId == q.customerId
                         && leases[q.leaseId].status == EXPIRED
    ensures q.leaseId !in leases ==> e == Some(LEASE_NOT_FOUND)
    ensures q.leaseId in leases && leases[q.leaseId].customerId != q.customerId ==> e == Some(LEASE_OWNER_NOT_MATCH)
    ensures q.leaseId in leases && leases[q.leaseId].customerId == q.customerId && leases[q.leaseId].status == REVIEWED
            ==> e == Some(REVIEW_ALREADY_EXISTS)
    ensures q.leaseId in leases && leases[q.leaseId].customerId == q.customerId
            && leases[q.leaseId].status != REVIEWED && leases[q.leaseId].status != EXPIRED
            ==> e == Some(LEASE_NOT_EXPIRED)
  {
    if q.leaseId !in leases then Some(LEASE_NOT_FOUND)
    else
      var lease := leases[q.leaseId];
      if lease.customerId != q.customerId then Some(LEASE_OWNER_NOT_MATCH)
      else if lease.status == REVIEWED then Some(REVIEW_ALREADY_EXISTS)
      else if lease.status != EXPIRED then Some(LEASE_NOT_EXPIRED)
      else None
  }

  /** The leases after a submit: the reviewed lease moves to REVIEWED, or nothing changes. */
  function AfterSubmit(leases: map<int, Lease>, q: SubmitRequest): (after: map<int, Lease>)
    ensures after.Keys == leases.Keys
    ensures forall id :: id in leases && id != q.leaseId ==> after[id] == leases[id]
    ensures SubmitError(leases, q).Some? ==> after == leases
    ensures SubmitError(leases, q).None? ==> after[q.leaseId] == leases[q.leaseId].(status := REVIEWED)
    ensures SubmitError(after, q).Some?
  {
    if SubmitError(leases, q).None? then leases[q.leaseId := leases[q.leaseId].(status := REVIEWED)]
    else leases
  }

  /** A successful submit closes the gate: submitting again for the same lease fails,
      with REVIEW_ALREADY_EXISTS for its customer and LEASE_OWNER_NOT_MATCH for anyone else. */
  lemma SecondSubmitRejected(leases: map<int, Lease>, q: SubmitRequest, customerId: int)
    requires SubmitError(leases, q).None?
    ensures var again := SubmitRequest(customerId, q.leaseId);
            SubmitError(AfterSubmit(leases, q), again)
            == Some(if customerId == leases[q.leaseId].customerId then REVIEW_ALREADY_EXISTS else LEASE_OWNER_NOT_MATCH)
  {
  }

  /** The lease ids whose submit succeeds, over a sequence of submits applied in order. */
  function Accepted(leases: map<int, Lease>, qs: seq<SubmitRequest>): seq<int>
    decreases qs
  {
    if qs == [] then []
    else
      var rest := Accepted(AfterSubmit(leases, qs[0]), qs[1..]);
      if SubmitError(leases, qs[0]).None? then [qs[0].leaseId] + rest else rest
  }

  /** A reviewed lease stays reviewed and is never accepted again. */
  lemma {:induction false} ReviewedNeverAccepted(leases: map<int, Lease>, qs: seq<SubmitRequest>, id: int)
    requires id in leases && leases[id].status == REVIEWED
    ensures id !in Accepted(leases, qs)
    decreases qs
  {
    if qs != [] {
      var next := AfterSubmit(leases, qs[0]);
      assert id in next && next[id].status == REVIEWED;
      ReviewedNeverAccepted(next, qs[1..], id);
    }
  }

  predicate NoDuplicates(xs: seq<int>) {
    forall i, j :: 0 <= i < j < |xs| ==> xs[i] != xs[j]
  }

  /** Whatever the order and the callers, each lease is reviewed successfully at most once. */
  lemma {:induction false} AtMostOneReviewPerLease(leases: map<int, Lease>, qs: seq<SubmitRequest>)
    ensures NoDuplicates(Accepted(leases, qs))
    decreases qs
  {
    if qs != [] {
      var next := AfterSubmit(leases, qs[0]);
      var rest := Accepted(next, qs[1..]);
      AtMostOneReviewPerLease(next, qs[1..]);
      if SubmitError(leases, qs[0]).None? {
        ReviewedNeverAccepted(next, qs[1..], qs[0].leaseId);
        var acc := Accepted(leases, qs);
        assert acc == [qs[0].leaseId] + rest;
        forall i, j | 0 <= i < j < |acc| ensures acc[i] != acc[j] {
          if i == 0 {
            assert acc[j] == rest[j - 1];
          } else {
            assert acc[i] == rest[i - 1] && acc[j] == rest[j - 1];
          }
        }
      } else {
        assert Accepted(leases, qs) == rest;
      }
    }
  }

  /* ---------------- the rating aggregate ---------------- */

  /** addReviewRateInfo on the office's columns: one more review and the rate added to
      the running total when the lock was acquired, no change when it was not. */
  function AddRateInfo(s: OfficeState, rate: int, lockAcquired: bool): (t: OfficeState)
    ensures t.(reviewCount := s.reviewCount, totalRate := s.totalRate) == s
    ensures t.reviewCount == s.reviewCount + (if lockAcquired then 1 else 0)
    ensures t.totalRate == s.totalRate + (if lockAcquired then rate else 0)
  {
    if lockAcquired then s.(reviewCount := s.reviewCount + 1, totalRate := s.totalRate + rate) else s
  }

  /** One rating submitted to an office, and whether the office lock was acquired for it. */
  datatype Rating = Rating(rate: int, lockAcquired: bool)

  function ApplyRatings(s: OfficeState, rs: seq<Rating>): OfficeState
    decreases rs
  {
    if rs == [] then s else ApplyRatings(AddRateInfo(s, rs[0].rate, rs[0].lockAcquired), rs[1..])
  }

  /** The rates that made it into the aggregate. */
  function CountedRates(rs: seq<Rating>): seq<int> {
    if rs == [] then []
    else (if rs[0].lockAcquired then [rs[0].rate] else []) + CountedRates(rs[1..])
  }

  function Sum(xs: seq<int>): int {
    if xs == [] then 0 else xs[0] + Sum(xs[1..])
  }

  /** The aggregate counts exactly the ratings whose lock was acquired and sums their
      rates; every other column of the office is left as it was. */
  lemma {:induction false} ApplyRatingsTotals(s: OfficeState, rs: seq<Rating>)
    ensures ApplyRatings(s, rs)
            == s.(reviewCount := s.reviewCount + |CountedRates(rs)|, totalRate := s.totalRate + Sum(CountedRates(rs)))
    decreases rs
  {
    if rs != [] {
      ApplyRatingsTotals(AddRateInfo(s, rs[0].rate, rs[0].lockAcquired), rs[1..]);
      var tail := CountedRates(rs[1..]);
      if rs[0].lockAcquired {
        var xs := [rs[0].rate] + tail;
        assert xs[0] == rs[0].rate && xs[1..] == tail;
        assert CountedRates(rs) == xs;
      } else {
        assert CountedRates(rs) == tail;
      }
    }
  }

  predicate RatesOnScale(xs: seq<int>) {
    forall i :: 0 <= i < |xs| ==> 1 <= xs[i] <= 5
  }

  lemma {:induction false} SumOnScale(xs: seq<int>)
    requires RatesOnScale(xs)
    ensures |xs| <= Sum(xs) <= 5 * |xs|
  {
    if xs != [] {
      SumOnScale(xs[1..]);
    }
  }

  lemma QuotientBounds(a: real, b: real, lo: real, hi: real)
    requires b > 0.0 && lo * b <= a <= hi * b
    ensures lo <= a / b <= hi
  {
    var q := a / b;
    assert q * b == a;
  }

  lemma QuotientOnScale(t: int, n: int)
    requires 0 < n && n <= t <= 5 * n
    ensures 1.0 <= t as real / n as real <= 5.0
  {
    assert (5 * n) as real == 5.0 * n as real;
    QuotientBounds(t as real, n as real, 1.0, 5.0);
  }

  /** An office created with no reviews, after any ratings on the 1..5 scale of which
      at least one was counted, shows an average rating between 1 and 5. */
  lemma AverageOnScale(s: OfficeState, rs: seq<Rating>)
    requires s.reviewCount == 0 && s.totalRate == 0
    requires RatesOnScale(CountedRates(rs)) && CountedRates(rs) != []
    ensures var t := ApplyRatings(s, rs);
            1.0 <= Bookmarks.IntendedAverageRate(t.reviewCount, t.totalRate) <= 5.0
  {
    ApplyRatingsTotals(s, rs);
    var xs := CountedRates(rs);
    SumOnScale(xs);
    QuotientOnScale(Sum(xs), |xs|);
    Bookmarks.RoundHundredthsBetween(Sum(xs) as real / |xs| as real, 1, 5);
  }

  /** A first review of 5 on a new office gives one review and an average of 5. */
  lemma FirstReviewOfFive(s: OfficeState)
    requires s.reviewCount == 0 && s.totalRate == 0
    ensures var t := AddRateInfo(s, 5, true);
            t.reviewCount == 1 && Bookmarks.IntendedAverageRate(t.reviewCount, t.totalRate) == 5.0
  {
    assert (5.0 / 1.0 * 100.0 + 0.5).Floor == 500;
  }

  /* ---------------- the service ---------------- */

  /** The repositories the service reads and writes: leases, offices and reviews by id,
      and the ids of the known customers. */
  class ReviewService {
    var leases: map<int, Lease>
    var offices: map<int, Office>
    var customers: set<int>
    var reviews: map<int, Review>
    /** The id the review repository gives the next saved review. */
    var nextReviewId: int

    /** Every lease points at a stored office, no office row is stored twice, and every
        review is stored under its own id, below the next id, and points at a stored lease. */
    ghost predicate Valid()
      reads this
    {
      && (forall id :: id in leases ==> leases[id].officeId in offices)
      && (forall a, b :: a in offices && b in offices && a != b ==> offices[a] != offices[b])
      && (forall id :: id in reviews ==> reviews[id].id == id && id < nextReviewId && reviews[id].leaseId in leases)
    }

    constructor (leases: map<int, Lease>, offices: map<int, Office>, customers: set<int>)
      requires forall id :: id in leases ==> leases[id].officeId in offices
      requires forall a, b :: a in offices && b in offices && a != b ==> offices[a] != offices[b]
      ensures Valid()
      ensures this.leases == leases && this.offices == offices && this.customers == customers
      ensures reviews == map[] && nextReviewId == 0
    {
      this.leases := leases;
      this.offices := offices;
      this.customers := customers;
      reviews := map[];
      nextReviewId := 0;
    }

    /** addReviewRateInfo: when the lock is acquired, read the two columns and write them
        back with one more review and the rate added; otherwise return at once. */
    method AddReviewRateInfo(office: Office, rate: int, lockAcquired: bool)
      modifies office
      ensures lockAcquired ==>
                office.State() == old(office.State()).(reviewCount := old(office.reviewCount) + 1,
                                                       totalRate := old(office.totalRate) + rate)
      ensures !lockAcquired ==> office.State() == old(office.State())
    {
      if !lockAcquired {
        return;
      }
      var reviewCount := office.reviewCount;
      var currentRate := office.totalRate;
      office.SetReviewCount(reviewCount + 1);
      office.SetReviewRate(currentRate + rate);
    }

    /** submit: the checks of SubmitError in order; then the review is built from the
        lease, the lease becomes REVIEWED, the office aggregate takes the rate when the
        lock is acquired, and the review is saved under a new id. A failed check changes nothing. */
    method Submit(customerId: int, leaseId: int, rate: int, description: string, lockAcquired: bool)
      returns (r: Result<Review>)
      requires Valid()
      modifies this, offices.Values
      ensures Valid()
      ensures offices == old(offices) && customers == old(customers)
      ensures leases == AfterSubmit(old(leases), SubmitRequest(customerId, leaseId))
      ensures r.Err? <==> SubmitError(old(leases), SubmitRequest(customerId, leaseId)).Some?
      ensures r.Err? ==>
                && SubmitError(old(leases), SubmitRequest(customerId, leaseId)) == Some(r.error)
                && reviews == old(reviews) && nextReviewId == old(nextReviewId)
                && (forall id :: id in offices ==> offices[id].State() == old(offices[id].State()))
      ensures r.Ok? ==>
                var officeId := old(leases)[leaseId].officeId;
                && r.value == Review(old(nextReviewId), leaseId, customerId, officeId, rate, description)
                && reviews == old(reviews)[r.value.id := r.value]
                && nextReviewId == old(nextReviewId) + 1
                && offices[officeId].State() == AddRateInfo(old(offices[officeId].State()), rate, lockAcquired)
                && (forall id :: id in offices && id != officeId ==> offices[id].State() == old(offices[id].State()))
    {
      if leaseId !in leases {
        return Err(LEASE_NOT_FOUND);
      }
      var lease := leases[leaseId];
      if lease.customerId != customerId {
        return Err(LEASE_OWNER_NOT_MATCH);
      }
      if lease.status == REVIEWED {
        return Err(REVIEW_ALREADY_EXISTS);
      }
      if lease.status != EXPIRED {
        return Err(LEASE_NOT_EXPIRED);
      }
      var review := Review(nextReviewId, leaseId, customerId, lease.officeId, rate, description);
      leases := leases[leaseId := lease.(status := REVIEWED)];
      AddReviewRateInfo(offices[lease.officeId], rate, lockAcquired);
      reviews := reviews[review.id := review];
      nextReviewId := nextReviewId + 1;
      return Ok(review);
    }

    /** update: the review must exist and its lease must belong to the caller; only the
        review's rate and description change, the office aggregate is not touched. */
    method Update(customerId: int, reviewId: int, rate: int, description: string) returns (r: Result<Review>)
      requires Valid()
      modifies this
      ensures Valid()
      ensures leases == old(leases) && offices == old(offices) && customers == old(customers)
      ensures nextReviewId == old(nextReviewId)
      ensures forall id :: id in offices ==> offices[id].State() == old(offices[id].State())
      ensures reviewId !in old(reviews) ==> r == Err(REVIEW_NOT_EXISTS)
      ensures reviewId in old(reviews) && leases[old(reviews)[reviewId].leaseId].customerId != customerId
              ==> r == Err(REVIEW_OWNER_NOT_MATCH)
      ensures r.Ok? <==> reviewId in old(reviews) && leases[old(reviews)[reviewId].leaseId].customerId == customerId
      ensures r.Err? ==> reviews == old(reviews)
      ensures r.Ok? ==>
                && r.value == old(reviews)[reviewId].(rate := rate, description := description)
                && reviews == old(reviews)[reviewId := r.value]
    {
      if reviewId !in reviews {
        return Err(REVIEW_NOT_EXISTS);
      }
      var review := reviews[reviewId];
      if leases[review.leaseId].customerId != customerId {
        return Err(REVIEW_OWNER_NOT_MATCH);
      }
      var updated := review.(rate := rate, description := description);
      reviews := reviews[reviewId := updated];
      return Ok(updated);
    }

    /** delete: the caller must be a known customer, the review must exist and its lease
        must belong to the caller; only the review is removed. The lease stays REVIEWED. */
    method Delete(customerId: int, reviewId: int) returns (r: Outcome)
      requires Valid()
      modifies this
      ensures Valid()
      ensures leases == old(leases) && offices == old(offices) && customers == old(customers)
      ensures nextReviewId == old(nextReviewId)
      ensures forall id :: id in offices ==> offices[id].State() == old(offices[id].State())
      ensures customerId !in customers ==> r == Fail(USER_NOT_FOUND)
      ensures customerId in customers && reviewId !in old(reviews) ==> r == Fail(REVIEW_NOT_EXISTS)
      ensures customerId in customers && reviewId in old(reviews)
              && leases[old(reviews)[reviewId].leaseId].customerId != customerId
              ==> r == Fail(REVIEW_OWNER_NOT_MATCH)
      ensures r.Pass? <==> customerId in customers && reviewId in old(reviews)
                           && leases[old(reviews)[reviewId].leaseId].customerId == customerId
      ensures r.Fail? ==> reviews == old(reviews)
      ensures r.Pass? ==> reviews == old(reviews) - {reviewId}
    {
      if customerId !in customers {
        return Fail(USER_NOT_FOUND);
      }
      if reviewId !in reviews {
        return Fail(REVIEW_NOT_EXISTS);
      }
      var review := reviews[reviewId];
      if customerId != leases[review.leaseId].customerId {
        return Fail(REVIEW_OWNER_NOT_MATCH);
      }
      reviews := reviews - {reviewId};
      return Pass;
    }
  }

  /* ---------------- the finally block of addReviewRateInfo ---------------- */

  /** How the finally block ends: the lock released, left alone, or
      IllegalMonitorStateException thrown. The lock's holder is a thread id, or None when free. */
  datatype LockExit = Released | LeftAlone | IllegalMonitorState

  /** RLock.unlock: only the holder may release; anyone else gets IllegalMonitorStateException. */
  function Unlock(holder: Option<int>, thread: int): LockExit {
    if holder == Some(thread) then Released else IllegalMonitorState
  }

  /** The finally block as written: unlock whenever the lock is held by anyone (isLocked). */
  function FinallyAsWritten(holder: Option<int>, thread: int): (e: LockExit)
    ensures holder.Some? && holder.value != thread ==> e == IllegalMonitorState
    ensures holder == Some(thread) ==> e == Released
    ensures holder.None? ==> e == LeftAlone
  {
    if holder.Some? then Unlock(holder, thread) else LeftAlone
  }

  /** When tryLock gave up because another thread holds the lock, the finally block as
      written throws, so the submit's transaction is rolled back instead of skipping the update. */
  lemma TimedOutSubmitThrows()
    ensures FinallyAsWritten(Some(2), 1) == IllegalMonitorState
  {
  }

  /** The finally block as intended: unlock only a lock this thread holds (isHeldByCurrentThread). */
  function FinallyIntended(holder: Option<int>, thread: int): (e: LockExit)
    ensures e != IllegalMonitorState
    ensures e == Released <==> holder == Some(thread)
  {
    if holder == Some(thread) then Unlock(holder, thread) else LeftAlone
  }
}
