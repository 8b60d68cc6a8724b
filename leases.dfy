/** The lease records that the review and owner services read. */
module Leases {
  import opened Dates

  /** LeaseStatus: a lease is booked AWAIT, accepted PROCEEDING or REJECTED,
      swept to EXPIRED after its end date, and REVIEWED once its customer reviews it. */
  datatype LeaseStatus = AWAIT | PROCEEDING | EXPIRED | REVIEWED | REJECTED

  datatype Lease = Lease(
    customerId: int,
    officeId: int,
    price: int,
    startDate: Date,
    status: LeaseStatus)
}
