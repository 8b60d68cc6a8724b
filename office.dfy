/** The Office entity: its columns, its builder from a creation request and
    the setters that update it in place. */
module Offices {

  /** The address part of a creation request; only the street is read. */
  datatype Address = Address(street: string)

  datatype CreateRequest = CreateRequest(
    officeName: string,
    maxCapacity: int,
    leaseFee: int,
    maxRoomCount: int,
    address: Address)

  datatype ModifyRequest = ModifyRequest(
    officeName: string,
    leaseFee: int,
    maxCapacity: int,
    maxRoomCount: int)

  /** A snapshot of the columns of an Office row (the id is the key it is stored under). */
  datatype OfficeState = OfficeState(
    name: string,
    ownerId: int,
    leaseFee: int,
    maxCapacity: int,
    officeAddress: string,
    maxRoomCount: int,
    reviewCount: int,
    totalRate: int)

  class Office {
    var name: string
    var ownerId: int
    var leaseFee: int
    var maxCapacity: int
    var officeAddress: string
    var maxRoomCount: int
    var reviewCount: int
    var totalRate: int

    function State(): OfficeState
      reads this
    {
      OfficeState(name, ownerId, leaseFee, maxCapacity, officeAddress, maxRoomCount, reviewCount, totalRate)
    }

    /** createFromRequest: the request's fields, the street as address, and no reviews yet. */
    constructor CreateFromRequest(request: CreateRequest, ownerId: int)
      ensures State() == OfficeState(
                request.officeName, ownerId, request.leaseFee, request.maxCapacity,
                request.address.street, request.maxRoomCount, 0, 0)
    {
      name := request.officeName;
      this.ownerId := ownerId;
      maxCapacity := request.maxCapacity;
      leaseFee := request.leaseFee;
      maxRoomCount := request.maxRoomCount;
      officeAddress := request.address.street;
      reviewCount := 0;
      totalRate := 0;
    }

    /** modifyFromRequest: the four editable columns; owner, address and ratings stay. */
    method ModifyFromRequest(request: ModifyRequest)
      modifies this
      ensures State() == old(State()).(
                name := request.officeName,
                leaseFee := request.leaseFee,
                maxCapacity := request.maxCapacity,
                maxRoomCount := request.maxRoomCount)
    {
      name := request.officeName;
      leaseFee := request.leaseFee;
      maxCapacity := request.maxCapacity;
      maxRoomCount := request.maxRoomCount;
    }

    method SetReviewCount(newReviewCount: int)
      modifies this
      ensures State() == old(State()).(reviewCount := newReviewCount)
    {
      reviewCount := newReviewCount;
    }

    /** setReviewRate writes the running total: there is no separate rate column. */
    method SetReviewRate(reviewRate: int)
      modifies this
      ensures State() == old(State()).(totalRate := reviewRate)
    {
      totalRate := reviewRate;
    }

    method SetOfficeAddress(address: string)
      modifies this
      ensures State() == old(State()).(officeAddress := address)
    {
      officeAddress := address;
    }
  }
}
