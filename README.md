# officefinder: review, rating, revenue and chat bookkeeping in Dafny

This project models the bookkeeping core of the officefinder office-rental
service. The repositories, Redis and Spring are replaced by maps and
sequences. It covers:

- **Office** (`office.dfy`, module `Offices`): the office entity. A class
  whose methods assign its columns in place: the builder from a creation
  request, `modifyFromRequest` and the three setters.
- **Review submission** (`reviews.dfy`, module `Reviews`):
  - `submit` is a one-shot gate. A lease may be reviewed only by its own
    customer, and only once it is EXPIRED. The review then moves the lease
    to REVIEWED and adds the rating to the office's running pair
    (reviewCount, totalRate).
  - The office lock is a boolean "acquired" outcome. Without the lock the
    review is still saved but the pair is left alone.
  - `update` and `delete` carry owner checks.
- **Bookmark view** (`bookmark.dfy`, module `Bookmarks`): `BookmarkDto.from`
  picks the representative picture, renders the review count in decimal and
  derives the average rating from the running pair.
- **Owner dashboard** (`owner_service.dfy`, module `OfficeOwner`):
  - Revenue goes into six "yyyy-MM" month buckets, from the first day of the
    month five months back up to today. Each bucket is initialised to 0 and
    then every selected lease's price is added to the bucket of its start
    month.
  - The counting parts of the rental-status queries.
- **Chat** (`chat.dfy`, module `Chat`):
  - the last message of each room;
  - the room list seen by a customer or by an owner, with per-room "new message"
    flags (see "## Findings" for the query that feeds them);
  - a room's transcript with "is mine" and sender per viewer;
  - room creation guarded by at most one room per customer and owner;
  - sending, attributed by the sender's name.

Shared modules:
- `errors.dfy`: the error codes, Option, Result and Outcome.
- `decimal.dfy`: the decimal rendering of integers, with its parse round trip.
- `dates.dfy`: calendar months on one axis and the "yyyy-MM" key, with its
  round trip.
- `leases.dfy`: lease records.

Clocks, random ids, the caller identity taken from the JWT and the
repositories' query results are parameters. In the source, `today` in
OfficeOwnerService is a field set once when the service object is created;
here it is a parameter of each call.

## Model

| member | source | states |
|---|---|---|
| Offices.Office.CreateFromRequest | src/main/java/com/dokkebi/officefinder/entity/office/Office.java:69-80 | a new office has the request's name, capacity, fee and room count, the street as address, the given owner, and reviewCount = totalRate = 0 |
| Offices.Office.ModifyFromRequest | src/main/java/com/dokkebi/officefinder/entity/office/Office.java:85-91 | exactly name, leaseFee, maxCapacity and maxRoomCount take the request's values; owner, address and the rating pair are unchanged |
| Offices.Office.SetReviewCount | src/main/java/com/dokkebi/officefinder/entity/office/Office.java:101-103 | only reviewCount changes, to the given value |
| Offices.Office.SetReviewRate | src/main/java/com/dokkebi/officefinder/entity/office/Office.java:105-107 | the "rate" setter writes totalRate and nothing else |
| Offices.Office.SetOfficeAddress | src/main/java/com/dokkebi/officefinder/entity/office/Office.java:109-111 | only officeAddress changes |
| Bookmarks.RepresentImagePath | src/main/java/com/dokkebi/officefinder/controller/bookmark/dto/BookmarkDto.java:28-32 | "None" for a missing or empty picture list, otherwise the first picture's file name |
| Bookmarks.JavaDiv | src/main/java/com/dokkebi/officefinder/controller/bookmark/dto/BookmarkDto.java:39 | long division truncates toward zero: the remainder is smaller than the divisor and has the dividend's sign; it agrees with Euclidean division on non-negative operands |
| Bookmarks.AverageRate | src/main/java/com/dokkebi/officefinder/controller/bookmark/dto/BookmarkDto.java:34-41 | as written: 0 when either column is 0 (so never a division by zero), otherwise the truncated quotient of the two longs, unchanged by the rounding |
| Bookmarks.RoundHundredthsOfWhole | src/main/java/com/dokkebi/officefinder/controller/bookmark/dto/BookmarkDto.java:40 | rounding a whole number to two decimals gives it back |
| Bookmarks.RoundHundredthsClose | src/main/java/com/dokkebi/officefinder/controller/bookmark/dto/BookmarkDto.java:40 | rounding to two decimals moves a value by at most 0.005 |
| Bookmarks.RoundHundredthsBetween | src/main/java/com/dokkebi/officefinder/controller/bookmark/dto/BookmarkDto.java:40 | rounding keeps a value between two whole numbers between them |
| Bookmarks.TruncatedAverageExample | src/main/java/com/dokkebi/officefinder/controller/bookmark/dto/BookmarkDto.java:39 | two reviews totalling 9 show 4.0 as written, and 4.5 as intended |
| Bookmarks.IntendedAverageRate | src/main/java/com/dokkebi/officefinder/controller/bookmark/dto/BookmarkDto.java:34-41 | 0 without reviews, otherwise a whole number of hundredths within 0.005 of the exact average totalRate / reviewCount, which fixes it as the exact average rounded to two decimals |
| Bookmarks.RoundHundredthsOnGrid | src/main/java/com/dokkebi/officefinder/controller/bookmark/dto/BookmarkDto.java:40 | Math.round(x * 100) / 100 is a whole number of hundredths |
| Bookmarks.From | src/main/java/com/dokkebi/officefinder/controller/bookmark/dto/BookmarkDto.java:24-52 | ids, name and address copied; the representative picture; the review amount is the decimal text of reviewCount and parses back to it; the rate is the intended average |
| Decimal.Render | src/main/java/com/dokkebi/officefinder/controller/bookmark/dto/BookmarkDto.java:49 | the decimal text of a long is never empty and starts with '-' exactly for a negative number |
| Decimal.RenderRoundTrip | src/main/java/com/dokkebi/officefinder/controller/bookmark/dto/BookmarkDto.java:49 | String.valueOf of a long parses back to the same number |
| Decimal.RenderInjective | src/main/java/com/dokkebi/officefinder/controller/bookmark/dto/BookmarkDto.java:49 | different counts render as different texts |
| Dates.PlusMonths | src/main/java/com/dokkebi/officefinder/service/officeowner/OfficeOwnerService.java:30 | plusMonths / minusMonths yields a valid month exactly n months away on the month axis |
| Dates.MonthKey | src/main/java/com/dokkebi/officefinder/service/officeowner/OfficeOwnerService.java:94 | the `toString().substring(0, 7)` key of a month is seven characters with a dash at index 4 |
| Dates.MonthKeyRoundTrip | src/main/java/com/dokkebi/officefinder/service/officeowner/OfficeOwnerService.java:94 | the "yyyy-MM" prefix of a date's text is seven characters with a dash at index 4, and parses back to the month |
| Dates.MonthKeyInjective | src/main/java/com/dokkebi/officefinder/service/officeowner/OfficeOwnerService.java:100 | different months get different keys |
| OfficeOwner.StartDate | src/main/java/com/dokkebi/officefinder/service/officeowner/OfficeOwnerService.java:27-31 | the window starts on day 1 of the month PERIOD = 5 months before today's month |
| OfficeOwner.WindowKeysDistinct | src/main/java/com/dokkebi/officefinder/service/officeowner/OfficeOwnerService.java:93-96 | the six window months have pairwise different keys |
| OfficeOwner.WindowKeysUpToSize | src/main/java/com/dokkebi/officefinder/service/officeowner/OfficeOwnerService.java:93-96 | the first n months of the window have n distinct keys |
| OfficeOwner.ZeroBuckets | src/main/java/com/dokkebi/officefinder/service/officeowner/OfficeOwnerService.java:91-96 | the first loop leaves exactly the window's month keys in the map, each at 0 |
| OfficeOwner.DateKeyInWindow | src/main/java/com/dokkebi/officefinder/service/officeowner/OfficeOwnerService.java:100-103 | a lease starting inside the window has a key, and it is the key of its month's bucket |
| OfficeOwner.BucketsPartitionTotal | src/main/java/com/dokkebi/officefinder/service/officeowner/OfficeOwnerService.java:99-104 | every lease in the window lands in exactly one bucket, so the buckets add up to the total price |
| OfficeOwner.GetRevenue | src/main/java/com/dokkebi/officefinder/service/officeowner/OfficeOwnerService.java:90-106 | exactly six keys, consecutive from the start month; each holds the sum of the prices of the leases starting in that month; the six values add up to the sum of all prices |
| OfficeOwner.RevenueLeases | src/main/java/com/dokkebi/officefinder/service/officeowner/OfficeOwnerService.java:41-42 | the lease query keeps exactly the leases of the given offices that start between startDate and today inclusive and are EXPIRED or PROCEEDING, each as often as it is stored |
| OfficeOwner.QueriedLeasesInWindow | src/main/java/com/dokkebi/officefinder/service/officeowner/OfficeOwnerService.java:41-42 | every lease the query returns starts inside the six-month window, so its bucket exists |
| OfficeOwner.FindOwned | src/main/java/com/dokkebi/officefinder/service/officeowner/OfficeOwnerService.java:38-39 | an office is found exactly when one with that id belongs to the owner |
| OfficeOwner.OwnedOffices | src/main/java/com/dokkebi/officefinder/service/officeowner/OfficeOwnerService.java:50 | exactly the offices of the owner |
| OfficeOwner.IdsOf | src/main/java/com/dokkebi/officefinder/service/officeowner/OfficeOwnerService.java:52-53 | the id set of a list of offices holds each row's id and nothing else |
| OfficeOwner.GetOfficeRevenue | src/main/java/com/dokkebi/officefinder/service/officeowner/OfficeOwnerService.java:35-45 | OFFICE_NOT_OWNED_BY_OWNER exactly when the caller does not own the office; otherwise the buckets of that office's queried leases |
| OfficeOwner.GetOfficesTotalRevenue | src/main/java/com/dokkebi/officefinder/service/officeowner/OfficeOwnerService.java:47-57 | the buckets of the queried leases of all the caller's offices |
| OfficeOwner.ProceedingIn | src/main/java/com/dokkebi/officefinder/service/officeowner/OfficeOwnerService.java:64-65 | the count of PROCEEDING leases of the given offices is at most the number of leases |
| OfficeOwner.ProceedingInCounts | src/main/java/com/dokkebi/officefinder/service/officeowner/OfficeOwnerService.java:64-65 | the PROCEEDING count query returns exactly the number of stored leases that are PROCEEDING and belong to one of the given offices |
| OfficeOwner.ProceedingInFrom | src/main/java/com/dokkebi/officefinder/service/officeowner/OfficeOwnerService.java:64-65 | the count over the leases from a position on is the number of PROCEEDING leases of the given offices at or after that position |
| OfficeOwner.ProceedingInDisjointUnion | src/main/java/com/dokkebi/officefinder/service/officeowner/OfficeOwnerService.java:80-81 | counting over two disjoint sets of offices is the sum of the two counts |
| OfficeOwner.GetOfficeRentalStatus | src/main/java/com/dokkebi/officefinder/service/officeowner/OfficeOwnerService.java:59-71 | OFFICE_NOT_OWNED_BY_OWNER exactly when not owned; otherwise the office's maxRoomCount and the count of its PROCEEDING leases |
| OfficeOwner.OverallIsSumOfOffices | src/main/java/com/dokkebi/officefinder/service/officeowner/OfficeOwnerService.java:80-81 | the count over a set of offices equals the sum of the single-office counts |
| OfficeOwner.OwnedOfficesUnique | src/main/java/com/dokkebi/officefinder/service/officeowner/OfficeOwnerService.java:76 | the owner's offices keep distinct ids |
| OfficeOwner.GetOfficeOverallRentalStatus | src/main/java/com/dokkebi/officefinder/service/officeowner/OfficeOwnerService.java:73-87 | the total room count is the sum of maxRoomCount over the owner's offices; when office ids are unique (UniqueIds, as for a primary key), the PROCEEDING count is the sum of the per-office counts |
| Reviews.SubmitError | src/main/java/com/dokkebi/officefinder/service/review/ReviewService.java:54-67 | submit may go ahead exactly when the lease exists, is the caller's and is EXPIRED; otherwise it fails with LEASE_NOT_FOUND, LEASE_OWNER_NOT_MATCH, REVIEW_ALREADY_EXISTS or LEASE_NOT_EXPIRED, with the owner check before the status checks |
| Reviews.AfterSubmit | src/main/java/com/dokkebi/officefinder/service/review/ReviewService.java:70 | changeLeaseStatus: the same lease ids; only an accepted submit changes its lease, to REVIEWED with its other fields kept; the same request submitted again is always refused |
| Reviews.SecondSubmitRejected | src/main/java/com/dokkebi/officefinder/service/review/ReviewService.java:61-63 | after a successful submit, submitting for the same lease fails: REVIEW_ALREADY_EXISTS for its customer, LEASE_OWNER_NOT_MATCH for anyone else |
| Reviews.ReviewedNeverAccepted | src/main/java/com/dokkebi/officefinder/service/review/ReviewService.java:61-63 | a REVIEWED lease is never accepted by any later sequence of submits |
| Reviews.AtMostOneReviewPerLease | src/main/java/com/dokkebi/officefinder/service/review/ReviewService.java:61-70 | over any sequence of submits, no lease is accepted twice |
| Reviews.AddRateInfo | src/main/java/com/dokkebi/officefinder/service/review/ReviewService.java:136-142 | addReviewRateInfo on the office columns: only reviewCount and totalRate can change; one more review and the rate added when the lock was acquired, nothing otherwise |
| Reviews.ApplyRatingsTotals | src/main/java/com/dokkebi/officefinder/service/review/ReviewService.java:136-142 | after any sequence of ratings, reviewCount has grown by the number of locked updates and totalRate by the sum of their rates; the other columns are unchanged |
| Reviews.AverageOnScale | src/main/java/com/dokkebi/officefinder/service/review/ReviewService.java:138-142 | on a new office, ratings on the 1..5 scale give a displayed average between 1 and 5 |
| Reviews.FirstReviewOfFive | src/main/java/com/dokkebi/officefinder/service/review/ReviewService.java:138-142 | a first review of 5 on a new office gives one review and an average of 5 |
| Reviews.ReviewService.AddReviewRateInfo | src/main/java/com/dokkebi/officefinder/service/review/ReviewService.java:132-151 | with the lock acquired, reviewCount + 1 and totalRate + rate; without it, the office is unchanged |
| Reviews.ReviewService.Submit | src/main/java/com/dokkebi/officefinder/service/review/ReviewService.java:52-74 | the checks of SubmitError in order, changing nothing on failure; on success the lease becomes REVIEWED, the review is saved under a fresh id, the lease's office takes the rating when the lock was acquired, and no other office changes |
| Reviews.ReviewService.Update | src/main/java/com/dokkebi/officefinder/service/review/ReviewService.java:78-88 | REVIEW_NOT_EXISTS, then REVIEW_OWNER_NOT_MATCH when the review's lease is not the caller's; succeeds exactly when the review exists and its lease is the caller's, and then only that review's rate and description change; no office changes |
| Reviews.ReviewService.Delete | src/main/java/com/dokkebi/officefinder/service/review/ReviewService.java:105-117 | USER_NOT_FOUND, REVIEW_NOT_EXISTS, then REVIEW_OWNER_NOT_MATCH; succeeds exactly when the caller is known, the review exists and its lease is the caller's, and then only the review is removed; leases and offices are untouched |
| Reviews.FinallyAsWritten | src/main/java/com/dokkebi/officefinder/service/review/ReviewService.java:146-150 | as written, the finally block calls unlock whenever anyone holds the lock: it releases a lock this thread holds, throws when another thread holds it, and does nothing when the lock is free |
| Reviews.TimedOutSubmitThrows | src/main/java/com/dokkebi/officefinder/service/review/ReviewService.java:136 | after a timed-out tryLock, with the lock held elsewhere, the finally block throws IllegalMonitorStateException |
| Reviews.FinallyIntended | src/main/java/com/dokkebi/officefinder/service/review/ReviewService.java:146-150 | as intended, the finally block never throws, and releases exactly when this thread holds the lock |
| Chat.ViewerOf | src/main/java/com/dokkebi/officefinder/service/chat/ChatService.java:46 | the customer view exactly for user type "customer"; any other type is an owner |
| Chat.LastIndexFor | src/main/java/com/dokkebi/officefinder/service/chat/ChatService.java:212-214 | the position of a room's last message: it belongs to the room and no later message does; -1 when the room has none |
| Chat.NewestIndexIn | src/main/java/com/dokkebi/officefinder/service/chat/ChatService.java:207-208 | the position of the newest message among those of the given rooms: -1 exactly when they have none; otherwise it is theirs and none of theirs is newer |
| Chat.TopByCreatedAtDesc | src/main/java/com/dokkebi/officefinder/service/chat/ChatService.java:207-208 | the Top query returns at most one row: none exactly when the rooms have no message, otherwise a message of one of them with none of theirs newer |
| Chat.AtMostOneRoomShowsAMessage | src/main/java/com/dokkebi/officefinder/service/chat/ChatService.java:206-215 | as written, no two different rooms of the list both get a last message |
| Chat.OlderUnreadRoomHidden | src/main/java/com/dokkebi/officefinder/service/chat/ChatService.java:207 | two rooms with unread messages: as written the one with the older message shows "" and no news; per room it shows its message and news |
| Chat.NewestMessage | src/main/java/com/dokkebi/officefinder/service/chat/ChatService.java:207 | a room's newest message: none exactly when it has no message, otherwise one of its messages with none of them newer |
| Chat.NewestPerRoomLast | src/main/java/com/dokkebi/officefinder/service/chat/ChatService.java:206-215 | the map loop over the per-room rows gives every listed room its newest message and no other room an entry |
| Chat.NewsIffUnread | src/main/java/com/dokkebi/officefinder/service/chat/ChatService.java:62-63 | with the per-room query, a room shows news exactly when it holds a message newer than the viewer's last visit |
| Chat.ChatService.ChatMessageMap | src/main/java/com/dokkebi/officefinder/service/chat/ChatService.java:206-216 | a room is a key exactly when it has a message, and maps to its last message in iteration order |
| Chat.RoomsOf | src/main/java/com/dokkebi/officefinder/service/chat/ChatService.java:49-50 | exactly the rooms in which the user is on their side |
| Chat.RoomsOfCounts | src/main/java/com/dokkebi/officefinder/service/chat/ChatService.java:49-50 | each of the user's rooms is listed as often as it is stored, and no other room is |
| Chat.RoomStatus | src/main/java/com/dokkebi/officefinder/service/chat/ChatService.java:54-75 | named after the other side; newMessage exactly when the last message is later than the viewer's last-seen time; an empty room shows "", no news, and the customer's last-seen time |
| Chat.ChatService.FindAllRoom | src/main/java/com/dokkebi/officefinder/service/chat/ChatService.java:42-107 | USER_NOT_FOUND exactly when the caller is unknown on their side; otherwise one status per room of theirs, in room order, each built from that room's newest message (the per-room query recorded under "## Findings") |
| Chat.MessageView | src/main/java/com/dokkebi/officefinder/service/chat/ChatService.java:124-138 | isMyMessage exactly when the viewer's side id is set; the sender is the viewer's name then and the other side's name otherwise; text and time are copied |
| Chat.ViewsAgree | src/main/java/com/dokkebi/officefinder/service/chat/ChatService.java:123-157 | a message attributed to one side names the same sender in both views, and exactly one view calls it its own |
| Chat.RoomMessages | src/main/java/com/dokkebi/officefinder/service/chat/ChatService.java:116 | exactly the messages of the room |
| Chat.RoomMessagesCounts | src/main/java/com/dokkebi/officefinder/service/chat/ChatService.java:116 | each message of the room is in the transcript as often as it is stored, and no other message is |
| Chat.FindRoom | src/main/java/com/dokkebi/officefinder/service/chat/ChatService.java:114-115 | a room is found exactly when one has the uid |
| Chat.ChatService.RoomInfo | src/main/java/com/dokkebi/officefinder/service/chat/ChatService.java:111-159 | CHAT_ROOM_NOT_FOUND exactly when no room has the uid; otherwise one response per message of the room, in order |
| Chat.HasRoom | src/main/java/com/dokkebi/officefinder/service/chat/ChatService.java:172 | existsByCustomerAndOfficeOwner holds exactly when some room joins this customer and this owner |
| Chat.ChatService.CreateRoom | src/main/java/com/dokkebi/officefinder/service/chat/ChatService.java:163-178 | USER_NOT_FOUND, INVALID_OFFICE_ID, then CHAT_ROOM_ALREADY_EXISTS when the customer already has a room with the office's owner; succeeds exactly when none of these applies, and then exactly one room is appended; at most one room per pair is kept |
| Chat.Attribute | src/main/java/com/dokkebi/officefinder/service/chat/ChatService.java:185-201 | the stored message is the customer's exactly when the sender's name is the customer's name, and the owner's otherwise; exactly one side is set |
| Chat.ChatService.Send | src/main/java/com/dokkebi/officefinder/service/chat/ChatService.java:181-203 | CHAT_ROOM_NOT_FOUND when no room has the uid, with nothing stored; otherwise exactly one message is appended |
| Chat.SameNameSendsAsCustomer | src/main/java/com/dokkebi/officefinder/service/chat/ChatService.java:185 | when owner and customer share a name, the owner's messages are stored as the customer's |
| Chat.SentMessageIsLast | src/main/java/com/dokkebi/officefinder/service/chat/ChatService.java:185-201 | when every earlier message of the room is older than the send time, the sent message becomes the room's newest message, so the room list shows its text and flags it as news to the other side when they last looked earlier |

## Left out

- The Redisson lock: `tryLock` is the boolean parameter `lockAcquired`. Waiting, lease expiry, concurrency and the InterruptedException path are not modelled. The finally block is modelled separately, by the lock's holder only.
- Redis cache annotations on `update` and `delete`: they only keep a cache in step.
- Floating point:
  - `leaseRate` in the two rental-status queries is not modelled.
  - The average rating is an exact real, so double rounding errors are not modelled.
  - The rating is kept as a number, not as the text that String.valueOf(double) makes of it.
- Reviews.ReviewService.AddReviewRateInfo: does not model 64-bit wrap-around of reviewCount and totalRate, because integers are unbounded here.
- OfficeOwner.GetRevenue: does not model 64-bit wrap-around of the bucket sums, for the same reason.
- Each service call is one atomic step. JPA transactions, lazy loading and rollback are not modelled.
- The JWT: user id and user type are parameters.
- The clock:
  - `today` is a parameter of the revenue calls. The source takes it once, when the service object is created.
  - The message time and the new room's time are parameters.
- Room uid: a parameter that must be unused, standing for the random id the room gets.
- Dates: only year, month and day are compared; month lengths are not checked. Month keys are defined for years 0 to 9999, so `today` must be in years 1 to 9999.
- The revenue query's ORDER BY start date: the buckets are sums, so order does not change them.
- Chat.ChatService.FindAllRoom: does not reproduce the as-written room list, in which at most one room shows a last message or news; it uses the per-room newest message recorded under "## Findings". Of equally new messages the first stored is taken, where the database leaves the order of ties open.
- Review.from, updateReview, ChatRoom.create and CreateRoomResponse.from are not part of this model. A review is modelled as the lease's office, the caller, the rate and the description. A new room's two last-seen times are its creation time.
- Other ReviewService methods: `getReviewsByCustomerId`, `getReviewOverviewByOfficeId`, `getReviewsByOfficeId` and `getTopTwoReviews` are read-only paging queries, not part of this model.
- Office's `setOfficeCondition` and `setOfficeLocation`: they write attribute objects that are not part of this model.
- The HashMap keyed by ChatRoom entities is keyed by room uid, which is unique per room.

## Findings

| source | as written | input that shows it | evidently intended | confidence | as-written member | corrected member |
|---|---|---|---|---|---|---|
| src/main/java/com/dokkebi/officefinder/controller/bookmark/dto/BookmarkDto.java:39 | `(double)(totalRate / reviewCount)` divides the two longs, then casts | 2 reviews with totalRate 9 show 4.0 | divide as doubles, so 4.5, then round to hundredths | high; not executed | Bookmarks.AverageRate | Bookmarks.IntendedAverageRate |
| src/main/java/com/dokkebi/officefinder/service/review/ReviewService.java:147-148 | the finally block calls `unlock` whenever `isLocked()`, i.e. whenever any thread holds the lock | a submit whose tryLock times out while another request holds the office lock: unlock throws IllegalMonitorStateException and the submit is rolled back | unlock only when held by the current thread; the timeout skips the rating update and the review is saved | medium; not executed | Reviews.FinallyAsWritten | Reviews.FinallyIntended |
| src/main/java/com/dokkebi/officefinder/service/chat/ChatService.java:207 | `findTopByChatRoomInOrderByCreatedAtDesc(chatRooms)`: a bare Top limits the derived query to one row, the newest message of all the caller's rooms together | a customer with rooms a and b, an unseen message in a at time 5 and one in b at time 6: room a shows "" and no news | each room shows its own newest message, and news when it is newer than the viewer's last visit | medium; not executed | Chat.TopByCreatedAtDesc | Chat.NewestMessage |

How the three findings are carried through the model:
- Bookmarks.TruncatedAverageExample exhibits the first finding: AverageRate(2, 9) is 4.0, while IntendedAverageRate(2, 9) is 4.5. Bookmarks.From and Reviews.AverageOnScale use the intended average.
- Reviews.TimedOutSubmitThrows exhibits the second finding. Reviews.ReviewService.Submit follows the intended behaviour: with `lockAcquired` false, the review is saved and the lease is closed.
- Chat.OlderUnreadRoomHidden exhibits the third finding on two rooms, and Chat.AtMostOneRoomShowsAMessage states it for every room list. Chat.NewestPerRoom is the per-room query built from Chat.NewestMessage, and Chat.ChatService.FindAllRoom feeds it to the map loop. Chat.NewestPerRoomLast and Chat.NewsIffUnread prove the intended property: each room shows news exactly when it holds an unseen message.
